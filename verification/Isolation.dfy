/** Divide and conquer finds exactly the malicious URLs. If clients use "dac", start before they report,
    and report a visit malicious exactly when its group contains a URL of a fixed set, then a settled URL
    has the right verdict, unless its group was given up after repeated errors. */
module Isolation {
  import opened Prelude
  import opened UrlGroups
  import opened Lifecycle
  import opened GroupLedger
  import opened Scheduler
  import opened Holding
  import opened Conservation
  import opened OneAlgorithm

  ghost predicate Hits(us: seq<UrlId>, bad: set<UrlId>) {
    exists u :: u in us && u in bad
  }

  /** Honest reports about the set bad. The flag of a finish event adds to earlier system events;
      a retried error may hide what was seen but not invent it. */
  ghost predicate Honest(s: Server, e: Event, bad: set<UrlId>) {
    Proper(s, e, Dac) &&
    match e
    case SystemEvent(c) => HoldsIn(s, c) && s.fleet.clients[c].state == Visiting ==> Hits(HeldUrls(s, c), bad)
    case Finish(c, _, m, _, _) =>
      HoldsIn(s, c) ==> (s.pool.groups[s.fleet.clients[c].held.value].malicious || m <==> Hits(HeldUrls(s, c), bad))
    case ErrorReport(c, _, m, changed, _, code) =>
      && changed <= bad
      && (HoldsIn(s, c) ==> if RetryCode(code) then m ==> Hits(HeldUrls(s, c), bad) else m <==> Hits(HeldUrls(s, c), bad))
    case _ => true
  }

  predicate HoldsIn(s: Server, c: ClientId) {
    c in s.fleet.clients && s.fleet.clients[c].held.Some? && s.fleet.clients[c].held.value in s.pool.groups
  }

  function HeldUrls(s: Server, c: ClientId): seq<UrlId>
    requires HoldsIn(s, c)
  {
    s.pool.groups[s.fleet.clients[c].held.value].urls
  }

  // ---- Verdicts of a pool ----

  /** No flag and no verdict is a false alarm. */
  ghost predicate NoFalseAlarm(p: Pool, bad: set<UrlId>) {
    && (forall g {:trigger p.groups[g]} :: g in p.groups && p.groups[g].malicious ==> Hits(p.groups[g].urls, bad))
    && (forall u {:trigger p.urls[u]} :: u in p.urls && p.urls[u].malicious == Some(true) ==> u in bad)
  }

  predicate GroupRight(p: Pool, g: GroupId, bad: set<UrlId>)
    requires g in p.groups
  {
    forall u :: u in p.groups[g].urls ==> u in p.urls && p.urls[u].malicious == Some(u in bad)
  }

  /** The URLs of a group that was visited and not split have their exact verdicts. */
  predicate SettledRight(p: Pool, held: set<GroupId>, bad: set<UrlId>) {
    forall g {:trigger GroupRight(p, g, bad)} ::
      g in p.groups && !Active(p, held, g) && !Armed(p.groups[g]) && p.groups[g].state == GroupVisited ==> GroupRight(p, g, bad)
  }

  ghost predicate Right(p: Pool, held: set<GroupId>, bad: set<UrlId>) {
    NoFalseAlarm(p, bad) && SettledRight(p, held, bad)
  }

  /** Settled groups other than g keep their URLs' verdicts when only g and its URLs change. */
  lemma OthersRight(p: Pool, q: Pool, g: GroupId, held: set<GroupId>, held': set<GroupId>, queue: set<UrlId>,
                    ledger: Ledger, bad: set<UrlId>)
    requires Balanced(p, held, queue, ledger) && g in held && g in p.groups && SettledRight(p, held, bad)
    requires p.groups.Keys <= q.groups.Keys && (forall h :: h in p.groups && h != g ==> q.groups[h] == p.groups[h])
    requires forall h :: h in p.groups && h != g ==> (Active(q, held', h) <==> Active(p, held, h))
    requires q.urls.Keys == p.urls.Keys && (forall u :: u in p.urls && u !in p.groups[g].urls ==> q.urls[u] == p.urls[u])
    ensures forall h {:trigger GroupRight(q, h, bad)} ::
              h in p.groups && h != g && !Active(q, held', h) && !Armed(q.groups[h]) && q.groups[h].state == GroupVisited ==>
              GroupRight(q, h, bad)
  {
    assert GroupPlaced(p, held, ledger, g);
    forall h | h in p.groups && h != g && !Active(q, held', h) && !Armed(q.groups[h]) && q.groups[h].state == GroupVisited
      ensures GroupRight(q, h, bad)
    {
      assert GroupPlaced(p, held, ledger, h);
      assert GroupRight(p, h, bad);
    }
  }

  lemma TouchedRight(p: Pool, q: Pool, g: GroupId, held: set<GroupId>, queue: set<UrlId>, ledger: Ledger, bad: set<UrlId>)
    requires Balanced(p, held, queue, ledger) && g in held && g in p.groups && Right(p, held, bad)
    requires Touched(p, q, g) && NoFalseAlarm(q, bad)
    ensures Right(q, held, bad)
  {
    OthersRight(p, q, g, held, held, queue, ledger, bad);
  }

  lemma FailedRight(p: Pool, q: Pool, g: GroupId, held: set<GroupId>, queue: set<UrlId>, ledger: Ledger, bad: set<UrlId>)
    requires Balanced(p, held, queue, ledger) && g in held && g in p.groups && Right(p, held, bad)
    requires Failed(p, q, g)
    requires forall u :: u in p.urls ==> q.urls[u].malicious == p.urls[u].malicious || q.urls[u].malicious == Some(false)
    ensures Right(q, held - {g}, bad)
  {
    assert forall h :: h != g ==> (Active(q, held - {g}, h) <==> Active(p, held, h));
    OthersRight(p, q, g, held, held - {g}, queue, ledger, bad);
  }

  lemma FinishedRight(p: Pool, q: Pool, g: GroupId, held: set<GroupId>, queue: set<UrlId>, ledger: Ledger, bad: set<UrlId>)
    requires Balanced(p, held, queue, ledger) && g in held && g in p.groups && Right(p, held, bad)
    requires Finished(p, q, g) && GroupRight(p, g, bad)
    ensures Right(q, held - {g}, bad)
  {
    assert forall h :: h != g ==> (Active(q, held - {g}, h) <==> Active(p, held, h));
    OthersRight(p, q, g, held, held - {g}, queue, ledger, bad);
    assert GroupRight(q, g, bad);
  }

  lemma SplitRight(p: Pool, q: Pool, g: GroupId, held: set<GroupId>, queue: set<UrlId>, ledger: Ledger, bad: set<UrlId>)
    requires Balanced(p, held, queue, ledger) && g in held && g in p.groups && g < p.next && Right(p, held, bad)
    requires SplitOff(p, q, g) && Hits(p.groups[g].urls, bad)
    ensures Right(q, held - {g}, bad)
  {
    SplitActive(p, q, g, held, queue, ledger);
    OthersRight(p, q, g, held, held - {g}, queue, ledger, bad);
    forall h | h in q.groups && q.groups[h].malicious
      ensures Hits(q.groups[h].urls, bad)
    {
      assert h != g && h < p.next ==> q.groups[h] == p.groups[h];
    }
  }

  /** Ending the visit of a group whose fields were changed first. */
  lemma CloseRight(p0: Pool, p: Pool, g: GroupId, state: GroupState, held: set<GroupId>, queue: set<UrlId>, ledger: Ledger,
                   bad: set<UrlId>)
    requires Balanced(p0, held, queue, ledger) && g in held && g in p0.groups && Right(p0, held, bad)
    requires Touched(p0, p, g) && NoFalseAlarm(p, bad) && (state == GroupVisited || state == GroupError)
    requires state == GroupVisited && !Armed(p.groups[g]) ==> GroupRight(p, g, bad)
    ensures (forall h :: h in p.groups ==> h < p.next) && Right(Notify(p, g, state), held - {g}, bad)
  {
    TouchedKeepsBalance(p0, p, g, held, queue, ledger);
    TouchedRight(p0, p, g, held, queue, ledger, bad);
    var q := Notify(p, g, state);
    if Armed(p.groups[g]) {
      NotifySplits(p, g, state);
      SplitRight(p, q, g, held, queue, ledger, bad);
    } else if state == GroupVisited {
      NotifyFinishes(p, g);
      FinishedRight(p, q, g, held, queue, ledger, bad);
    } else {
      NotifyErrorFails(p, g);
      FailedRight(p, q, g, held, queue, ledger, bad);
    }
  }

  // ---- Verdicts set by a report ----

  /** Under dac a verdict about g that is right about g's URLs gives right URL verdicts where it gives any. */
  lemma VerdictRight(p: Pool, g: GroupId, malicious: bool, changed: Option<set<UrlId>>, bad: set<UrlId>)
    requires g in p.groups && NoFalseAlarm(p, bad) && |p.groups[g].urls| > 0
    requires malicious ==> Hits(p.groups[g].urls, bad)
    requires forall u :: u in p.groups[g].urls ==> u in p.urls
    ensures var q := SetMalicious(p, g, Dac, malicious, changed);
            && Touched(p, q, g) && NoFalseAlarm(q, bad)
            && ((malicious <==> Hits(p.groups[g].urls, bad)) && !(malicious && |p.groups[g].urls| > 1) ==> GroupRight(q, g, bad))
  {
    SetMaliciousTouches(p, g, Dac, malicious, changed);
    if |p.groups[g].urls| == 1 {
      assert forall u :: u in p.groups[g].urls ==> u == p.groups[g].urls[0];
    }
  }

  lemma GroupUrlsKnown(p: Pool, g: GroupId, held: set<GroupId>, queue: set<UrlId>, ledger: Ledger)
    requires Balanced(p, held, queue, ledger) && g in p.groups && Active(p, held, g)
    ensures |p.groups[g].urls| > 0 && forall u :: u in p.groups[g].urls ==> u in p.urls
  {
    assert GroupPlaced(p, held, ledger, g);
  }

  lemma FinishRight(s: Server, g: GroupId, malicious: bool, changed: set<UrlId>, codes: map<UrlId, int>, ledger: Ledger,
                    bad: set<UrlId>)
    requires LedgerRight(s, ledger) && g in Held(s.fleet) && g in s.pool.groups && Right(s.pool, Held(s.fleet), bad)
    requires s.pool.groups[g].algorithm == Dac
    requires s.pool.groups[g].malicious || malicious <==> Hits(s.pool.groups[g].urls, bad)
    ensures var q := FinishPool(s.pool, g, Dac, malicious, changed, codes);
            && (forall h :: h in q.groups ==> h < q.next)
            && Right(Notify(q, g, GroupVisited), Held(s.fleet) - {g}, bad)
            && (Armed(q.groups[g]) <==> |s.pool.groups[g].urls| > 1 && Hits(s.pool.groups[g].urls, bad))
  {
    var p := ReportCodes(s.pool, g, NonZero(codes));
    var q := FinishPool(s.pool, g, Dac, malicious, changed, codes);
    GroupUrlsKnown(s.pool, g, Held(s.fleet), s.queue, ledger);
    VerdictRight(p, g, s.pool.groups[g].malicious || malicious, Some(changed), bad);
    FinishTouches(s.pool, g, Dac, malicious, changed, codes);
    CloseRight(s.pool, q, g, GroupVisited, Held(s.fleet), s.queue, ledger, bad);
  }

  lemma ErrorRight(s: Server, g: GroupId, malicious: bool, changed: set<UrlId>, codes: map<UrlId, int>, code: int,
                   ledger: Ledger, bad: set<UrlId>)
    requires LedgerRight(s, ledger) && g in Held(s.fleet) && g in s.pool.groups && Right(s.pool, Held(s.fleet), bad)
    requires s.pool.groups[g].algorithm == Dac && changed <= bad
    requires if RetryCode(code) then malicious ==> Hits(s.pool.groups[g].urls, bad)
             else malicious <==> Hits(s.pool.groups[g].urls, bad)
    ensures var q := ErrorPool(s.pool, g, Dac, malicious, changed, codes, code);
            && (forall h :: h in q.groups ==> h < q.next)
            && Right(Notify(q, g, if RetryCode(code) then GroupError else GroupVisited), Held(s.fleet) - {g}, bad)
            && (!RetryCode(code) ==> (Armed(q.groups[g]) <==> |s.pool.groups[g].urls| > 1 && Hits(s.pool.groups[g].urls, bad)))
  {
    var p1 := ReportCodes(s.pool, g, codes);
    var p2 := if !RetryCode(code) && malicious then FlushChanges(p1, g, changed) else p1;
    var q := ErrorPool(s.pool, g, Dac, malicious, changed, codes, code);
    GroupUrlsKnown(s.pool, g, Held(s.fleet), s.queue, ledger);
    assert NoFalseAlarm(p2, bad);
    VerdictRight(p2, g, malicious, Some(changed), bad);
    ErrorTouches(s.pool, g, Dac, malicious, changed, codes, code);
    assert NoFalseAlarm(q, bad);
    CloseRight(s.pool, q, g, if RetryCode(code) then GroupError else GroupVisited, Held(s.fleet), s.queue, ledger, bad);
  }

  // ---- Steps of the server ----

  ghost predicate ServerRight(s: Server, bad: set<UrlId>) {
    Right(s.pool, Held(s.fleet), bad)
  }

  /** Failures never turn a verdict into "malicious". */
  predicate Quieter(p: Pool, q: Pool) {
    q.urls.Keys == p.urls.Keys &&
    forall u {:trigger q.urls[u]} :: u in p.urls ==>
      q.urls[u].malicious == p.urls[u].malicious || q.urls[u].malicious == Some(false)
  }

  lemma TimeoutQuieter(p: Pool, g: GroupId, code: int)
    requires g in p.groups && (forall h :: h in p.groups ==> h < p.next) && !Armed(p.groups[g])
    ensures Quieter(p, FailHeld(Notify(SetMajor(p, g, code), g, GroupError), g))
  {
    var p1 := SetMajor(p, g, code);
    NotifyErrorFails(p1, g);
    FailHeldFails(Notify(p1, g, GroupError), g);
  }

  lemma DisconnectQuieter(p: Pool, q: Pool, g: GroupId)
    requires g in p.groups && (forall h :: h in p.groups ==> h < p.next) && !Armed(p.groups[g]) && q == FailHeld(p, g)
    ensures Failed(p, q, g) && Quieter(p, q)
  {
    FailHeldFails(p, g);
  }

  lemma FailedSendQuieter(p: Pool, g: GroupId)
    requires g in p.groups && (forall h :: h in p.groups ==> h < p.next) && !Armed(p.groups[g])
    ensures Quieter(p, Notify(SetMajor(FailHeld(p, g), g, PROCESS_ERROR), g, GroupError))
  {
    FailHeldFails(p, g);
    NotifyErrorFails(SetMajor(FailHeld(p, g), g, PROCESS_ERROR), g);
  }

  /** What step e of s must leave of the verdicts, if the pool becomes p. */
  ghost predicate NextRight(s: Server, e: Event, p: Pool, bad: set<UrlId>) {
    Right(p, HeldNext(s, e), bad)
  }

  lemma AddUrlRight(s: Server, u: UrlId, ledger: Ledger, bad: set<UrlId>)
    requires LedgerRight(s, ledger) && ServerRight(s, bad) && u !in s.pool.urls
    ensures NextRight(s, AddUrl(u), s.pool.(urls := s.pool.urls[u := Url(None, UrlFresh, OK)]), bad)
  {
    var q := s.pool.(urls := s.pool.urls[u := Url(None, UrlFresh, OK)]);
    assert HeldNext(s, AddUrl(u)) == Held(s.fleet);
    forall g | g in q.groups && !Active(q, Held(s.fleet), g) && !Armed(q.groups[g]) && q.groups[g].state == GroupVisited
      ensures GroupRight(q, g, bad)
    {
      assert GroupRight(s.pool, g, bad);
    }
  }

  /** The pool after group g of p was handed to a client, or failed to be. */
  function Handed(p: Pool, g: GroupId, ok: bool): Pool
    requires g in p.groups && (forall h :: h in p.groups ==> h < p.next)
  {
    if ok then p else Notify(SetMajor(FailHeld(p, g), g, PROCESS_ERROR), g, GroupError)
  }

  lemma HandRight(s: Server, e: Event, p: Pool, g: GroupId, queue: set<UrlId>, ledger: Ledger, bad: set<UrlId>)
    requires e.Take? && g in p.groups && g !in Held(s.fleet) && !Armed(p.groups[g])
    requires Balanced(p, Held(s.fleet) + {g}, queue, ledger) && Right(p, Held(s.fleet) + {g}, bad)
    requires HeldNext(s, e) == Held(s.fleet) + if e.ok then {g} else {}
    ensures NextRight(s, e, Handed(p, g, e.ok), bad)
  {
    if !e.ok {
      FailedSendFails(p, g);
      FailedSendQuieter(p, g);
      FailedRight(p, Handed(p, g, e.ok), g, Held(s.fleet) + {g}, queue, ledger, bad);
      assert Held(s.fleet) + {g} - {g} == Held(s.fleet) == HeldNext(s, e);
    }
  }

  lemma PopRight(p: Pool, held: set<GroupId>, bad: set<UrlId>)
    requires p.deque != [] && Right(p, held, bad)
    ensures Right(p.(deque := p.deque[1..]), held + {p.deque[0]}, bad)
  {
    var q := p.(deque := p.deque[1..]);
    assert p.deque == [p.deque[0]] + q.deque;
    forall h | h in q.groups && !Active(q, held + {p.deque[0]}, h) && !Armed(q.groups[h]) && q.groups[h].state == GroupVisited
      ensures GroupRight(q, h, bad)
    {
      assert GroupRight(p, h, bad);
    }
  }

  lemma NewGroupRight(p: Pool, batch: seq<UrlId>, held: set<GroupId>, bad: set<UrlId>)
    requires Right(p, held, bad) && p.next !in p.groups
    ensures Right(NewGroup(p, batch), held + {p.next}, bad)
  {
    var q := NewGroup(p, batch);
    forall h | h in q.groups && !Active(q, held + {p.next}, h) && !Armed(q.groups[h]) && q.groups[h].state == GroupVisited
      ensures GroupRight(q, h, bad)
    {
      assert GroupRight(p, h, bad);
    }
  }

  lemma PoppedRight(s: Server, e: Event, p: Pool, ledger: Ledger, bad: set<UrlId>)
    requires Inv(s, ledger) && ServerRight(s, bad) && e.Take? && s.pool.deque != []
    requires p == s.pool.(deque := s.pool.deque[1..])
    ensures s.pool.deque[0] in p.groups && (forall h :: h in p.groups ==> h < p.next)
    ensures NextRight(s, e, Handed(p, s.pool.deque[0], e.ok), bad)
  {
    var g := s.pool.deque[0];
    assert Active(s.pool, {}, g);
    PopKeepsBalance(s.pool, Held(s.fleet), s.queue, ledger);
    PopRight(s.pool, Held(s.fleet), bad);
    HandRight(s, e, p, g, s.queue, ledger, bad);
  }

  lemma AdmittedRight(s: Server, e: Event, p: Pool, ledger: Ledger, bad: set<UrlId>)
    requires Inv(s, ledger) && ServerRight(s, bad) && e.Take? && s.pool.deque == []
    requires e.batch != [] && NoDup(e.batch) && (forall u :: u in e.batch ==> u in s.queue) && p == NewGroup(s.pool, e.batch)
    ensures s.pool.next in p.groups && (forall h :: h in p.groups ==> h < p.next)
    ensures NextRight(s, e, Handed(p, s.pool.next, e.ok), bad)
  {
    BatchKeepsBalance(s.pool, e.batch, Held(s.fleet), s.queue, ledger);
    NewGroupRight(s.pool, e.batch, Held(s.fleet), bad);
    HandRight(s, e, p, s.pool.next, s.queue - (set u | u in e.batch), LedgerAfterBatch(s.pool, e.batch, ledger), bad);
  }

  lemma TakeRight(s: Server, e: Event, t: Server, ledger: Ledger, bad: set<UrlId>)
    requires Inv(s, ledger) && Resolved(s) && ServerRight(s, bad) && e.Take? && e.client in s.fleet.clients
    requires NoDup(e.batch) && (forall u :: u in e.batch ==> u in s.queue) && t == OnTake(s, e.client, e.batch, e.ok)
    ensures NextRight(s, e, t.pool, bad)
  {
    if s.pool.deque != [] {
      PoppedRight(s, e, s.pool.(deque := s.pool.deque[1..]), ledger, bad);
    } else if e.batch != [] {
      AdmittedRight(s, e, NewGroup(s.pool, e.batch), ledger, bad);
    } else {
      SameRight(s, e, bad);
    }
  }

  lemma StartQuiet(p: Pool, q: Pool, g: GroupId, alg: Algorithm, bad: set<UrlId>)
    requires g in p.groups && (forall h :: h in p.groups ==> h < p.next) && NoFalseAlarm(p, bad)
    requires q == Notify(SetAlgorithm(p, g, alg), g, GroupVisiting)
    ensures Touched(p, q, g) && NoFalseAlarm(q, bad)
  {
    StartTouches(p, g, alg);
  }

  lemma StartRight(s: Server, c: ClientId, alg: Algorithm, ledger: Ledger, bad: set<UrlId>)
    requires Inv(s, ledger) && Resolved(s) && ServerRight(s, bad) && Speaks(s, c)
    ensures NextRight(s, Start(c, alg), OnStart(s, c, alg).pool, bad)
  {
    assert HeldNext(s, Start(c, alg)) == Held(s.fleet);
    if s.fleet.clients[c].held.Some? {
      var g := s.fleet.clients[c].held.value;
      HeldGroup(s, c);
      StartQuiet(s.pool, OnStart(s, c, alg).pool, g, alg, bad);
      TouchedRight(s.pool, OnStart(s, c, alg).pool, g, Held(s.fleet), s.queue, ledger, bad);
    }
  }

  lemma SystemEventRight(s: Server, c: ClientId, ledger: Ledger, bad: set<UrlId>)
    requires Inv(s, ledger) && Resolved(s) && ServerRight(s, bad) && Uniform(s, Dac) && Speaks(s, c)
    requires s.fleet.clients[c].state == Visiting && HoldsIn(s, c) ==> Hits(HeldUrls(s, c), bad)
    ensures NextRight(s, SystemEvent(c), OnSystemEvent(s, c).pool, bad)
  {
    var client := s.fleet.clients[c];
    if client.state == Visiting {
      var g := client.held.value;
      HeldGroup(s, c);
      GroupUrlsKnown(s.pool, g, Held(s.fleet), s.queue, ledger);
      var q := SetMalicious(s.pool, g, Dac, true, None);
      VerdictRight(s.pool, g, true, None, bad);
      SetMaliciousTouches(s.pool, g, Dac, true, None);
      if |s.pool.groups[g].urls| > 1 {
        assert HeldNext(s, SystemEvent(c)) == Held(s.fleet) - {g};
        CloseRight(s.pool, q, g, GroupVisited, Held(s.fleet), s.queue, ledger, bad);
      } else {
        assert HeldNext(s, SystemEvent(c)) == Held(s.fleet);
        TouchedRight(s.pool, q, g, Held(s.fleet), s.queue, ledger, bad);
      }
    } else {
      assert HeldNext(s, SystemEvent(c)) == Held(s.fleet);
    }
  }

  lemma ReportRight(cfg: Config, s: Server, e: Event, ledger: Ledger, bad: set<UrlId>)
    requires Inv(s, ledger) && Resolved(s) && ServerRight(s, bad) && Uniform(s, Dac) && Enabled(cfg, s, e)
    requires Honest(s, e, bad) && (e.Finish? || e.ErrorReport?)
    ensures NextRight(s, e, Apply(cfg, s, e).pool, bad)
  {
    var g := s.fleet.clients[e.client].held.value;
    HeldGroup(s, e.client);
    assert HeldNext(s, e) == Held(s.fleet) - {g};
    if e.Finish? {
      FinishRight(s, g, e.malicious, e.changed, e.codes, ledger, bad);
    } else {
      ErrorRight(s, g, e.malicious, e.changed, e.codes, e.code, ledger, bad);
    }
  }

  lemma DownRight(s: Server, c: ClientId, ledger: Ledger, bad: set<UrlId>)
    requires Inv(s, ledger) && Resolved(s) && ServerRight(s, bad) && c in s.fleet.clients
    requires s.fleet.clients[c].state != Disconnected && !HoldsArmed(s, c)
    ensures NextRight(s, SendFailure(c), OnSendFailure(s, c).pool, bad)
  {
    if s.fleet.clients[c].held.Some? {
      var g := s.fleet.clients[c].held.value;
      HeldGroup(s, c);
      assert HeldNext(s, SendFailure(c)) == Held(s.fleet) - {g};
      var q := FailHeld(s.pool, g);
      DisconnectQuieter(s.pool, q, g);
      FailedRight(s.pool, q, g, Held(s.fleet), s.queue, ledger, bad);
    } else {
      assert HeldNext(s, SendFailure(c)) == Held(s.fleet);
    }
  }

  lemma TimeoutRight(s: Server, v: VmId, code: int, ledger: Ledger, bad: set<UrlId>)
    requires Inv(s, ledger) && Resolved(s) && ServerRight(s, bad) && v in s.fleet.vms && !Duplicates(s, Timeout(v, code))
    ensures NextRight(s, Timeout(v, code), OnTimeout(s, v, code).pool, bad)
  {
    var client := s.fleet.vms[v].client;
    if client.Some? && s.fleet.clients[client.value].held.Some? {
      assert Victim(s.fleet, v) == client;
      var g := s.fleet.clients[client.value].held.value;
      HeldGroup(s, client.value);
      TimeoutFails(s.pool, g, code);
      TimeoutQuieter(s.pool, g, code);
      FailedRight(s.pool, FailHeld(Notify(SetMajor(s.pool, g, code), g, GroupError), g), g, Held(s.fleet), s.queue, ledger, bad);
      assert HeldNext(s, Timeout(v, code)) == Held(s.fleet) - {g};
    } else {
      assert HeldNext(s, Timeout(v, code)) == Held(s.fleet);
    }
  }

  lemma SocketRight(s: Server, c: ClientId, ledger: Ledger, bad: set<UrlId>)
    requires Inv(s, ledger) && Resolved(s) && ServerRight(s, bad) && Speaks(s, c)
    ensures NextRight(s, SocketFailure(c), OnSocketFailure(s, c).pool, bad)
  {
    assert HeldNext(s, SocketFailure(c)) == Held(s.fleet);
    if s.fleet.clients[c].held.Some? {
      HeldGroup(s, c);
      TouchedRight(s.pool, OnSocketFailure(s, c).pool, s.fleet.clients[c].held.value, Held(s.fleet), s.queue, ledger, bad);
    }
  }

  lemma SameRight(s: Server, e: Event, bad: set<UrlId>)
    requires ServerRight(s, bad) && Released(s, e) == {} == Taken(s, e)
    ensures NextRight(s, e, s.pool, bad)
  {
    assert HeldNext(s, e) == Held(s.fleet);
  }

  lemma PoolRight(cfg: Config, s: Server, e: Event, t: Server, ledger: Ledger, bad: set<UrlId>)
    requires Inv(s, ledger) && Resolved(s) && ServerRight(s, bad) && Uniform(s, Dac) && Enabled(cfg, s, e)
    requires Honest(s, e, bad) && !Duplicates(s, e) && t == Apply(cfg, s, e)
    ensures NextRight(s, e, t.pool, bad)
  {
    match e
    case AddUrl(u) => AddUrlRight(s, u, ledger, bad);
    case AddVm(_) => SameRight(s, e, bad);
    case Connect(_, _, _) => SameRight(s, e, bad);
    case Take(_, _, _) => TakeRight(s, e, t, ledger, bad);
    case Start(c, alg) => StartRight(s, c, alg, ledger, bad);
    case OtherVisit(_, _) => SameRight(s, e, bad);
    case SystemEvent(c) => SystemEventRight(s, c, ledger, bad);
    case Finish(_, _, _, _, _) => ReportRight(cfg, s, e, ledger, bad);
    case ErrorReport(_, _, _, _, _, _) => ReportRight(cfg, s, e, ledger, bad);
    case SocketFailure(c) => SocketRight(s, c, ledger, bad);
    case SendFailure(c) => DownRight(s, c, ledger, bad);
    case Timeout(v, code) => TimeoutRight(s, v, code, ledger, bad);
    case Revert(_) => SameRight(s, e, bad);
  }

  lemma HonestStep(cfg: Config, s: Server, e: Event, ledger: Ledger, bad: set<UrlId>)
    requires Inv(s, ledger) && Calm(s) && ServerRight(s, bad) && Uniform(s, Dac) && Enabled(cfg, s, e) && Honest(s, e, bad)
    ensures Resolved(s) && ServerRight(Apply(cfg, s, e), bad)
  {
    StepHeld(cfg, s, e);
    CalmNeverDuplicates(cfg, s, e);
    PoolRight(cfg, s, e, Apply(cfg, s, e), ledger, bad);
  }

  // ---- Runs ----

  ghost predicate HonestRun(states: seq<Server>, events: seq<Event>, bad: set<UrlId>) {
    |events| <= |states| && forall i :: 0 <= i < |events| ==> Honest(states[i], events[i], bad)
  }

  lemma HonestIsProper(states: seq<Server>, events: seq<Event>, bad: set<UrlId>)
    requires HonestRun(states, events, bad)
    ensures ProperRun(states, events, Dac)
  {
    forall i | 0 <= i < |events|
      ensures Proper(states[i], events[i], Dac)
    {
      assert Honest(states[i], events[i], bad);
    }
  }

  lemma InitialRight(bad: set<UrlId>)
    ensures ServerRight(INITIAL, bad)
  {
  }

  lemma {:induction false} HonestRunRight(cfg: Config, states: seq<Server>, events: seq<Event>, bad: set<UrlId>, n: nat)
    requires Run(cfg, states, events) && HonestRun(states, events, bad) && n <= |events|
    ensures ServerRight(states[n], bad)
  {
    if n == 0 {
      InitialRight(bad);
    } else {
      HonestRunRight(cfg, states, events, bad, n - 1);
      HonestIsProper(states, events, bad);
      var ledger := ProperRunKeeps(cfg, states, events, Dac, n - 1);
      HonestStep(cfg, states[n - 1], events[n - 1], ledger, bad);
    }
  }

  /** Nothing is queued or held any more. */
  predicate Drained(s: Server) {
    s.queue == {} && s.pool.deque == [] && Held(s.fleet) == {}
  }

  /** Isolation. In every run of honest dac clients, with any number of them, any order of work and any
      failures, no URL outside bad is ever called malicious; and once the server is drained every URL has
      exactly the right verdict, except that the URLs of a group which failed at least twice may lack it. */
  lemma IsolationTheorem(cfg: Config, states: seq<Server>, events: seq<Event>, bad: set<UrlId>, n: nat)
    requires Run(cfg, states, events) && HonestRun(states, events, bad) && n <= |events|
    ensures forall u :: u in states[n].pool.urls && states[n].pool.urls[u].malicious == Some(true) ==> u in bad
    ensures Drained(states[n]) ==>
              forall u :: u in states[n].pool.urls ==>
                || states[n].pool.urls[u].malicious == Some(u in bad)
                || exists g :: g in states[n].pool.groups && u in states[n].pool.groups[g].urls
                               && states[n].pool.groups[g].state == GroupError && states[n].pool.groups[g].errorCount >= 2
  {
    var s := states[n];
    HonestRunRight(cfg, states, events, bad, n);
    HonestIsProper(states, events, bad);
    ProperRunsConserve(cfg, states, events, Dac, n);
    if Drained(s) {
      forall u | u in s.pool.urls
        ensures || s.pool.urls[u].malicious == Some(u in bad)
                || exists g :: g in s.pool.groups && u in s.pool.groups[g].urls
                               && s.pool.groups[g].state == GroupError && s.pool.groups[g].errorCount >= 2
      {
        DrainedVerdict(s, u, bad);
      }
    }
  }

  lemma DrainedVerdict(s: Server, u: UrlId, bad: set<UrlId>)
    requires Conserved(s) && Drained(s) && ServerRight(s, bad) && u in s.pool.urls
    ensures || s.pool.urls[u].malicious == Some(u in bad)
            || exists g :: g in s.pool.groups && u in s.pool.groups[g].urls
                           && s.pool.groups[g].state == GroupError && s.pool.groups[g].errorCount >= 2
  {
    var g :| Owns(s, u, g);
    assert SettledBy(s, u, g);
    if s.pool.groups[g].state == GroupVisited {
      assert GroupRight(s.pool, g, bad);
    }
  }
}
