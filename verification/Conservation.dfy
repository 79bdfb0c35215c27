/** What every step of the server keeps: each admitted URL is in exactly one place, every
    queued or held group is non-empty and none shares a URL with another, and a URL is
    settled only by a group that was visited or that failed twice. The one kind of step that
    breaks this is a failure that notifies a group more than once while the controller splits it. */
module Conservation {
  import opened Prelude
  import opened UrlGroups
  import opened Lifecycle
  import opened GroupLedger
  import opened Scheduler
  import opened Holding

  predicate LedgerRight(s: Server, ledger: Ledger) {
    Balanced(s.pool, Held(s.fleet), s.queue, ledger)
  }

  /** The invariant, for a given ledger. A held group may well be armed, a queued one never is. */
  predicate Inv(s: Server, ledger: Ledger) {
    Shaped(s) && LedgerRight(s, ledger) && Unarmed(s.pool, {})
  }

  /** No held group is armed either. */
  predicate Calm(s: Server) {
    Unarmed(s.pool, Held(s.fleet))
  }

  predicate HoldsArmed(s: Server, c: ClientId) {
    && c in s.fleet.clients && s.fleet.clients[c].held.Some? && s.fleet.clients[c].held.value in s.pool.groups
    && Armed(s.pool.groups[s.fleet.clients[c].held.value])
  }

  /** A client that holds an armed group goes down: its group is notified twice by a disconnect, three times by
      a timeout, and split each time. */
  predicate Duplicates(s: Server, e: Event) {
    match e
    case SendFailure(c) => HoldsArmed(s, c)
    case Timeout(v, _) => v in s.fleet.vms && s.fleet.vms[v].client.Some? && HoldsArmed(s, s.fleet.vms[v].client.value)
    case _ => false
  }

  /** The client holds a group that this visit event or system event turns into one the controller
      would split on an error notification while the client still holds it. */
  predicate Arms(s: Server, e: Event) {
    match e
    case Start(c, alg) =>
      && c in s.fleet.clients && s.fleet.clients[c].held.Some? && s.fleet.clients[c].held.value in s.pool.groups
      && Armed(s.pool.groups[s.fleet.clients[c].held.value].(algorithm := alg))
    case SystemEvent(c) =>
      && c in s.fleet.clients && s.fleet.clients[c].state == Visiting
      && s.fleet.clients[c].held.Some? && s.fleet.clients[c].held.value in s.pool.groups
      && s.fleet.clients[c].algorithm != Dac && s.fleet.clients[c].algorithm != Bulk
      && Armed(s.pool.groups[s.fleet.clients[c].held.value].(malicious := true))
    case _ => false
  }

  /** Only arming a held group, or going on to hold one, makes a failure duplicate. */
  lemma CalmNeverDuplicates(cfg: Config, s: Server, e: Event)
    requires Shaped(s) && Calm(s) && Enabled(cfg, s, e)
    ensures !Duplicates(s, e)
  {
    if Duplicates(s, e) {
      HeldGroup(s, if e.SendFailure? then e.client else s.fleet.vms[e.vm].client.value);
      assert false;
    }
  }

  // ---- Steps on the pool ----

  /** The pool and the URL queue after step e of s. */
  predicate Kept(s: Server, e: Event, p: Pool, queue: set<UrlId>, ledger: Ledger) {
    && Balanced(p, HeldNext(s, e), queue, ledger) && Unarmed(p, {})
    && (Calm(s) && !Arms(s, e) ==> Unarmed(p, HeldNext(s, e)))
  }

  lemma AddUrlKeeps(s: Server, u: UrlId, ledger: Ledger) returns (ledger': Ledger)
    requires Inv(s, ledger) && u !in s.pool.urls
    ensures Kept(s, AddUrl(u), s.pool.(urls := s.pool.urls[u := Url(None, UrlFresh, OK)]), s.queue + {u}, ledger')
  {
    ledger' := ledger[u := InQueue];
    var p := s.pool.(urls := s.pool.urls[u := Url(None, UrlFresh, OK)]);
    var held := Held(s.fleet);
    assert HeldNext(s, AddUrl(u)) == held;
    assert forall g :: Active(p, held, g) <==> Active(s.pool, held, g);
    forall w | w in ledger'
      ensures UrlPlaced(p, held, s.queue + {u}, ledger', w)
    {
      if w != u {
        assert UrlPlaced(s.pool, held, s.queue, ledger, w);
      }
    }
    forall g | g in p.groups
      ensures GroupPlaced(p, held, ledger', g)
    {
      assert GroupPlaced(s.pool, held, ledger, g);
    }
  }

  /** A step that leaves the pool and the held groups alone. */
  lemma SameKeeps(s: Server, e: Event, ledger: Ledger)
    requires Inv(s, ledger) && HeldNext(s, e) == Held(s.fleet)
    ensures Kept(s, e, s.pool, s.queue, ledger)
  {
  }

  /** A held group was changed in place and stays held. */
  lemma TouchKeeps(s: Server, e: Event, q: Pool, g: GroupId, ledger: Ledger)
    requires Inv(s, ledger) && g in Held(s.fleet) && g in s.pool.groups && Touched(s.pool, q, g)
    requires HeldNext(s, e) == Held(s.fleet) && (Calm(s) && !Arms(s, e) ==> !Armed(q.groups[g]))
    ensures Kept(s, e, q, s.queue, ledger)
  {
    TouchedKeepsBalance(s.pool, q, g, Held(s.fleet), s.queue, ledger);
    TouchedUnarmed(s, q, g);
  }

  /** A VISITED notification: the group is split if it is armed, and settled otherwise. */
  lemma VisitedKeeps(p: Pool, g: GroupId, held: set<GroupId>, queue: set<UrlId>, ledger: Ledger) returns (ledger': Ledger)
    requires Balanced(p, held, queue, ledger) && g in held && g in p.groups && Unarmed(p, {})
    ensures Balanced(Notify(p, g, GroupVisited), held - {g}, queue, ledger')
    ensures Unarmed(Notify(p, g, GroupVisited), {})
    ensures Unarmed(p, held - {g}) ==> Unarmed(Notify(p, g, GroupVisited), held - {g})
  {
    if Armed(p.groups[g]) {
      NotifySplits(p, g, GroupVisited);
      ledger' := LedgerAfterSplit(p, g, ledger);
      SplitKeepsBalance(p, Notify(p, g, GroupVisited), g, held, queue, ledger);
      SplitUnarmed(p, Notify(p, g, GroupVisited), g, held, queue, ledger);
    } else {
      NotifyFinishes(p, g);
      ledger' := LedgerAfterClose(p, g, ledger);
      FinishedKeepsBalance(p, Notify(p, g, GroupVisited), g, held, queue, ledger);
    }
  }

  lemma SplitUnarmed(p: Pool, q: Pool, g: GroupId, held: set<GroupId>, queue: set<UrlId>, ledger: Ledger)
    requires Balanced(p, held, queue, ledger) && g in held && g in p.groups && g < p.next && SplitOff(p, q, g)
    requires Unarmed(p, {})
    ensures Unarmed(q, {})
    ensures Unarmed(p, held - {g}) ==> Unarmed(q, held - {g})
  {
    assert forall h :: h in q.deque <==> h == p.next + 1 || h == p.next || h in p.deque;
  }

  /** A failure that was not split: the group is queued again or given up. */
  lemma FailedKeeps(p: Pool, q: Pool, g: GroupId, held: set<GroupId>, queue: set<UrlId>, ledger: Ledger) returns (ledger': Ledger)
    requires Balanced(p, held, queue, ledger) && g in held && g in p.groups && Unarmed(p, {})
    requires Failed(p, q, g) && !Armed(p.groups[g])
    ensures Balanced(q, held - {g}, queue, ledger')
    ensures Unarmed(q, {})
    ensures Unarmed(p, held - {g}) ==> Unarmed(q, held - {g})
  {
    ledger' := LedgerAfterFailure(p, g, ledger);
    FailedKeepsBalance(p, q, g, held, queue, ledger);
    assert forall h :: h in q.deque ==> h == g || h in p.deque;
  }

  /** An ERROR notification: split if armed, otherwise retried or given up. */
  lemma ErrorKeeps(p: Pool, g: GroupId, held: set<GroupId>, queue: set<UrlId>, ledger: Ledger) returns (ledger': Ledger)
    requires Balanced(p, held, queue, ledger) && g in held && g in p.groups && Unarmed(p, {})
    ensures Balanced(Notify(p, g, GroupError), held - {g}, queue, ledger')
    ensures Unarmed(Notify(p, g, GroupError), {})
    ensures Unarmed(p, held - {g}) ==> Unarmed(Notify(p, g, GroupError), held - {g})
  {
    if Armed(p.groups[g]) {
      NotifySplits(p, g, GroupError);
      ledger' := LedgerAfterSplit(p, g, ledger);
      SplitKeepsBalance(p, Notify(p, g, GroupError), g, held, queue, ledger);
      SplitUnarmed(p, Notify(p, g, GroupError), g, held, queue, ledger);
    } else {
      NotifyErrorFails(p, g);
      ledger' := FailedKeeps(p, Notify(p, g, GroupError), g, held, queue, ledger);
    }
  }

  /** Both ways a visit can end with the group let go: VISITED or a single ERROR, after changes in place. */
  lemma CloseKeeps(s: Server, e: Event, p: Pool, g: GroupId, state: GroupState, ledger: Ledger) returns (ledger': Ledger)
    requires Inv(s, ledger) && g in Held(s.fleet) && g in s.pool.groups && Touched(s.pool, p, g)
    requires (state == GroupVisited || state == GroupError) && HeldNext(s, e) == Held(s.fleet) - {g}
    requires forall h :: h in p.groups ==> h < p.next
    ensures Kept(s, e, Notify(p, g, state), s.queue, ledger')
  {
    TouchedKeepsBalance(s.pool, p, g, Held(s.fleet), s.queue, ledger);
    TouchedUnarmed(s, p, g);
    if state == GroupVisited {
      ledger' := VisitedKeeps(p, g, Held(s.fleet), s.queue, ledger);
    } else {
      ledger' := ErrorKeeps(p, g, Held(s.fleet), s.queue, ledger);
    }
  }

  lemma TouchedUnarmed(s: Server, p: Pool, g: GroupId)
    requires Shaped(s) && g in Held(s.fleet) && g in s.pool.groups && Touched(s.pool, p, g) && Unarmed(s.pool, {})
    ensures Unarmed(p, {})
    ensures Calm(s) ==> Unarmed(p, Held(s.fleet) - {g})
  {
    assert forall h :: h in p.groups && h != g ==> p.groups[h] == s.pool.groups[h];
  }

  // ---- Several notifications of one group ----

  /** The checker's notification and the two of the disconnect are one failure. */
  lemma TimeoutFails(p: Pool, g: GroupId, code: int)
    requires g in p.groups && (forall h :: h in p.groups ==> h < p.next) && !Armed(p.groups[g])
    ensures Failed(p, FailHeld(Notify(SetMajor(p, g, code), g, GroupError), g), g)
  {
    var p1 := SetMajor(p, g, code);
    var p2 := Notify(p1, g, GroupError);
    NotifyErrorFails(p1, g);
    assert Touched(p, p1, g);
    TouchedThenFailed(p, p1, p2, g);
    FailHeldFails(p2, g);
    FailedTwice(p, p2, FailHeld(p2, g), g);
  }

  /** The two notifications of the disconnect and the one of the failed send are one failure. */
  lemma FailedSendFails(p: Pool, g: GroupId)
    requires g in p.groups && (forall h :: h in p.groups ==> h < p.next) && !Armed(p.groups[g])
    ensures Failed(p, Notify(SetMajor(FailHeld(p, g), g, PROCESS_ERROR), g, GroupError), g)
  {
    var p1 := FailHeld(p, g);
    var p2 := SetMajor(p1, g, PROCESS_ERROR);
    FailHeldFails(p, g);
    NotifyErrorFails(p2, g);
    assert Touched(p1, p2, g);
    TouchedThenFailed(p1, p2, Notify(p2, g, GroupError), g);
    FailedTwice(p, p1, Notify(p2, g, GroupError), g);
  }

  /** An unarmed group fails while its client goes down. */
  lemma DownKeeps(s: Server, e: Event, q: Pool, g: GroupId, ledger: Ledger) returns (ledger': Ledger)
    requires Inv(s, ledger) && g in Held(s.fleet) && g in s.pool.groups && !Armed(s.pool.groups[g]) && Failed(s.pool, q, g)
    requires HeldNext(s, e) == Held(s.fleet) - {g}
    ensures Kept(s, e, q, s.queue, ledger')
  {
    ledger' := FailedKeeps(s.pool, q, g, Held(s.fleet), s.queue, ledger);
  }

  lemma SendFailureKeeps(s: Server, c: ClientId, ledger: Ledger) returns (ledger': Ledger)
    requires Inv(s, ledger) && Resolved(s) && c in s.fleet.clients && s.fleet.clients[c].state != Disconnected
    requires !Duplicates(s, SendFailure(c))
    ensures Kept(s, SendFailure(c), OnSendFailure(s, c).pool, s.queue, ledger')
  {
    if s.fleet.clients[c].held.Some? {
      var g := s.fleet.clients[c].held.value;
      HeldGroup(s, c);
      FailHeldFails(s.pool, g);
      ledger' := DownKeeps(s, SendFailure(c), FailHeld(s.pool, g), g, ledger);
    } else {
      ledger' := ledger;
      SameKeeps(s, SendFailure(c), ledger);
    }
  }

  lemma TimeoutKeeps(s: Server, v: VmId, code: int, ledger: Ledger) returns (ledger': Ledger)
    requires Inv(s, ledger) && Resolved(s) && v in s.fleet.vms && !Duplicates(s, Timeout(v, code))
    ensures Kept(s, Timeout(v, code), OnTimeout(s, v, code).pool, s.queue, ledger')
  {
    var client := s.fleet.vms[v].client;
    if client.Some? && s.fleet.clients[client.value].held.Some? {
      var g := s.fleet.clients[client.value].held.value;
      HeldGroup(s, client.value);
      assert Victim(s.fleet, v) == client;
      TimeoutFails(s.pool, g, code);
      ledger' := DownKeeps(s, Timeout(v, code), OnTimeout(s, v, code).pool, g, ledger);
    } else {
      ledger' := ledger;
      SameKeeps(s, Timeout(v, code), ledger);
    }
  }

  /** A group taken by a client whose send failed: it failed at once. */
  lemma SendFailsKeeps(p: Pool, q: Pool, g: GroupId, held: set<GroupId>, queue: set<UrlId>, ledger: Ledger)
    returns (ledger': Ledger)
    requires Balanced(p, held + {g}, queue, ledger) && g in p.groups && g !in held && Unarmed(p, {g})
    requires q == Notify(SetMajor(FailHeld(p, g), g, PROCESS_ERROR), g, GroupError)
    ensures Balanced(q, held, queue, ledger') && Unarmed(q, {})
    ensures Unarmed(p, held) ==> Unarmed(q, held)
  {
    assert held + {g} - {g} == held;
    FailedSendFails(p, g);
    assert Unarmed(p, {});
    ledger' := FailedKeeps(p, q, g, held + {g}, queue, ledger);
  }

  /** The group a client takes, held and still whole. */
  lemma HandKeeps(s: Server, e: Event, p: Pool, g: GroupId, queue: set<UrlId>, ledger: Ledger) returns (ledger': Ledger)
    requires e.Take? && g in p.groups && g !in Held(s.fleet)
    requires Balanced(p, Held(s.fleet) + {g}, queue, ledger)
    requires Unarmed(p, {g}) && (Calm(s) ==> Unarmed(p, Held(s.fleet) + {g}))
    requires HeldNext(s, e) == Held(s.fleet) + if e.ok then {g} else {}
    ensures Kept(s, e, if e.ok then p else Notify(SetMajor(FailHeld(p, g), g, PROCESS_ERROR), g, GroupError), queue, ledger')
  {
    if e.ok {
      ledger' := ledger;
    } else {
      assert HeldNext(s, e) == Held(s.fleet);
      ledger' := SendFailsKeeps(p, Notify(SetMajor(FailHeld(p, g), g, PROCESS_ERROR), g, GroupError), g, Held(s.fleet),
                                queue, ledger);
    }
  }

  lemma TakeKeeps(s: Server, e: Event, ledger: Ledger) returns (ledger': Ledger)
    requires Inv(s, ledger) && Resolved(s) && e.Take? && e.client in s.fleet.clients
    requires NoDup(e.batch) && (forall u :: u in e.batch ==> u in s.queue)
    ensures var t := OnTake(s, e.client, e.batch, e.ok); Kept(s, e, t.pool, t.queue, ledger')
  {
    if s.pool.deque != [] {
      var g := s.pool.deque[0];
      var p := s.pool.(deque := s.pool.deque[1..]);
      PopKeepsBalance(s.pool, Held(s.fleet), s.queue, ledger);
      assert forall h :: Active(p, Held(s.fleet) + {g}, h) ==> Active(s.pool, Held(s.fleet), h);
      assert forall h :: Active(p, {g}, h) ==> Active(s.pool, {}, h);
      ledger' := HandKeeps(s, e, p, g, s.queue, ledger);
    } else if e.batch != [] {
      var p := NewGroup(s.pool, e.batch);
      BatchKeepsBalance(s.pool, e.batch, Held(s.fleet), s.queue, ledger);
      ledger' := HandKeeps(s, e, p, s.pool.next, s.queue - (set u | u in e.batch), LedgerAfterBatch(s.pool, e.batch, ledger));
    } else {
      ledger' := ledger;
      SameKeeps(s, e, ledger);
    }
  }

  lemma StartTouches(p: Pool, g: GroupId, alg: Algorithm)
    requires g in p.groups && (forall h :: h in p.groups ==> h < p.next)
    ensures var q := Notify(SetAlgorithm(p, g, alg), g, GroupVisiting);
            && Touched(p, q, g) && q.groups[g] == p.groups[g].(algorithm := alg, state := GroupVisiting)
            && forall u {:trigger q.urls[u]} :: u in p.urls ==> q.urls[u].malicious == p.urls[u].malicious
  {
  }

  lemma StartKeeps(s: Server, c: ClientId, alg: Algorithm, ledger: Ledger)
    requires Inv(s, ledger) && Resolved(s) && Speaks(s, c)
    ensures Kept(s, Start(c, alg), OnStart(s, c, alg).pool, s.queue, ledger)
  {
    if s.fleet.clients[c].held.Some? {
      HeldGroup(s, c);
      StartTouches(s.pool, s.fleet.clients[c].held.value, alg);
      TouchKeeps(s, Start(c, alg), OnStart(s, c, alg).pool, s.fleet.clients[c].held.value, ledger);
    } else {
      SameKeeps(s, Start(c, alg), ledger);
    }
  }

  lemma SystemEventKeeps(s: Server, c: ClientId, ledger: Ledger) returns (ledger': Ledger)
    requires Inv(s, ledger) && Resolved(s) && Speaks(s, c)
    ensures Kept(s, SystemEvent(c), OnSystemEvent(s, c).pool, s.queue, ledger')
  {
    var client := s.fleet.clients[c];
    ledger' := ledger;
    if client.state != Visiting || client.held.None? {
      SameKeeps(s, SystemEvent(c), ledger);
    } else {
      var g := client.held.value;
      HeldGroup(s, c);
      var many := |s.pool.groups[g].urls| > 1;
      var q := SetMalicious(s.pool, g, client.algorithm, true, None);
      SetMaliciousTouches(s.pool, g, client.algorithm, true, None);
      if client.algorithm == Dac && many {
        ledger' := CloseKeeps(s, SystemEvent(c), q, g, GroupVisited, ledger);
      } else if client.algorithm == Bulk && many {
        SameKeeps(s, SystemEvent(c), ledger);
      } else {
        TouchKeeps(s, SystemEvent(c), q, g, ledger);
      }
    }
  }

  lemma FinishTouches(p: Pool, g: GroupId, alg: Algorithm, malicious: bool, changed: set<UrlId>, codes: map<UrlId, int>)
    requires g in p.groups
    ensures var q := FinishPool(p, g, alg, malicious, changed, codes);
            Touched(p, q, g) && q.groups[g] == p.groups[g].(malicious := p.groups[g].malicious || malicious)
  {
    SetMaliciousTouches(ReportCodes(p, g, NonZero(codes)), g, alg, p.groups[g].malicious || malicious, Some(changed));
  }

  lemma ErrorTouches(p: Pool, g: GroupId, alg: Algorithm, malicious: bool, changed: set<UrlId>, codes: map<UrlId, int>,
                     code: int)
    requires g in p.groups
    ensures var q := ErrorPool(p, g, alg, malicious, changed, codes, code);
            && Touched(p, q, g) && q.groups[g].malicious == malicious && q.groups[g].algorithm == p.groups[g].algorithm
  {
    var p1 := ReportCodes(p, g, codes);
    var p2 := if !RetryCode(code) && malicious then FlushChanges(p1, g, changed) else p1;
    assert Touched(p, p2, g) && p2.groups == p.groups;
    SetMaliciousTouches(p2, g, alg, malicious, Some(changed));
  }

  lemma FinishKeeps(cfg: Config, s: Server, e: Event, ledger: Ledger) returns (ledger': Ledger)
    requires Inv(s, ledger) && Resolved(s) && e.Finish? && Speaks(s, e.client)
    ensures Kept(s, e, OnFinish(cfg, s, e.client, e.algorithm, e.malicious, e.changed, e.codes).pool, s.queue, ledger')
  {
    if s.fleet.clients[e.client].held.Some? {
      var g := s.fleet.clients[e.client].held.value;
      HeldGroup(s, e.client);
      FinishTouches(s.pool, g, e.algorithm, e.malicious, e.changed, e.codes);
      ledger' := CloseKeeps(s, e, FinishPool(s.pool, g, e.algorithm, e.malicious, e.changed, e.codes), g, GroupVisited, ledger);
    } else {
      ledger' := ledger;
      SameKeeps(s, e, ledger);
    }
  }

  lemma ErrorReportKeeps(cfg: Config, s: Server, e: Event, ledger: Ledger) returns (ledger': Ledger)
    requires Inv(s, ledger) && Resolved(s) && e.ErrorReport? && Speaks(s, e.client)
    ensures Kept(s, e, OnError(cfg, s, e.client, e.algorithm, e.malicious, e.changed, e.codes, e.code).pool, s.queue, ledger')
  {
    if s.fleet.clients[e.client].held.Some? {
      var g := s.fleet.clients[e.client].held.value;
      HeldGroup(s, e.client);
      ErrorTouches(s.pool, g, e.algorithm, e.malicious, e.changed, e.codes, e.code);
      ledger' := CloseKeeps(s, e, ErrorPool(s.pool, g, e.algorithm, e.malicious, e.changed, e.codes, e.code), g,
                            if RetryCode(e.code) then GroupError else GroupVisited, ledger);
    } else {
      ledger' := ledger;
      SameKeeps(s, e, ledger);
    }
  }

  lemma SocketFailureKeeps(s: Server, c: ClientId, ledger: Ledger)
    requires Inv(s, ledger) && Resolved(s) && Speaks(s, c)
    ensures Kept(s, SocketFailure(c), OnSocketFailure(s, c).pool, s.queue, ledger)
  {
    if s.fleet.clients[c].held.Some? {
      HeldGroup(s, c);
      TouchKeeps(s, SocketFailure(c), SetMajor(s.pool, s.fleet.clients[c].held.value, SOCKET_ERROR),
                 s.fleet.clients[c].held.value, ledger);
    } else {
      SameKeeps(s, SocketFailure(c), ledger);
    }
  }

  lemma PoolKept(cfg: Config, s: Server, e: Event, ledger: Ledger) returns (ledger': Ledger)
    requires Inv(s, ledger) && Resolved(s) && Enabled(cfg, s, e) && !Duplicates(s, e)
    ensures Kept(s, e, Apply(cfg, s, e).pool, Apply(cfg, s, e).queue, ledger')
  {
    ledger' := ledger;
    match e
    case AddUrl(u) => ledger' := AddUrlKeeps(s, u, ledger);
    case AddVm(_) => SameKeeps(s, e, ledger);
    case Connect(_, _, _) => SameKeeps(s, e, ledger);
    case Take(_, _, _) => ledger' := TakeKeeps(s, e, ledger);
    case Start(c, alg) => StartKeeps(s, c, alg, ledger);
    case OtherVisit(_, _) => SameKeeps(s, e, ledger);
    case SystemEvent(c) => ledger' := SystemEventKeeps(s, c, ledger);
    case Finish(_, _, _, _, _) => ledger' := FinishKeeps(cfg, s, e, ledger);
    case ErrorReport(_, _, _, _, _, _) => ledger' := ErrorReportKeeps(cfg, s, e, ledger);
    case SocketFailure(c) => SocketFailureKeeps(s, c, ledger);
    case SendFailure(c) => ledger' := SendFailureKeeps(s, c, ledger);
    case Timeout(v, code) => ledger' := TimeoutKeeps(s, v, code, ledger);
    case Revert(_) => SameKeeps(s, e, ledger);
  }

  /** Every step but a failure of an armed group keeps the invariant; held groups stay unarmed until a step arms one. */
  lemma StepKeeps(cfg: Config, s: Server, e: Event, ledger: Ledger) returns (ledger': Ledger)
    requires Inv(s, ledger) && Enabled(cfg, s, e) && !Duplicates(s, e)
    ensures Resolved(s) && Inv(Apply(cfg, s, e), ledger')
    ensures Calm(s) && !Arms(s, e) ==> Calm(Apply(cfg, s, e))
  {
    StepHeld(cfg, s, e);
    ledger' := PoolKept(cfg, s, e, ledger);
  }

  // ---- The failure of an armed group ----

  /** When a client that holds an armed group is disconnected, the two error notifications split the
      group twice: each of its URLs ends up in two queued groups. */
  lemma ArmedFailureDuplicates(p: Pool, g: GroupId)
    requires g in p.groups && (forall h :: h in p.groups ==> h < p.next) && Armed(p.groups[g])
    ensures var q := FailHeld(p, g);
            && p.next in q.groups && p.next + 2 in q.groups
            && q.deque == [p.next + 3, p.next + 2, p.next + 1, p.next] + p.deque
            && q.groups[p.next].urls == q.groups[p.next + 2].urls == p.groups[g].urls[..|p.groups[g].urls| / 2]
  {
    var p1 := Notify(p, g, GroupError);
    assert p1.groups[g].malicious && p1.groups[g].algorithm == Dac && p1.groups[g].urls == p.groups[g].urls;
    var p2 := SetMajor(p1, g, CONNECTION_RESET);
    assert p2.deque == [p.next + 1, p.next] + p.deque;
    assert FailHeld(p, g) == Notify(p2, g, GroupError);
  }

  /** Group g is queued or held and lists URL u. */
  predicate InActive(s: Server, u: UrlId, g: GroupId) {
    g in s.pool.groups && Active(s.pool, Held(s.fleet), g) && u in s.pool.groups[g].urls
  }

  /** Group g lists URL u, is neither queued nor held and was not split. */
  predicate SettledBy(s: Server, u: UrlId, g: GroupId) {
    g in s.pool.groups && !Active(s.pool, Held(s.fleet), g) && !Armed(s.pool.groups[g]) && u in s.pool.groups[g].urls
  }

  predicate Owns(s: Server, u: UrlId, g: GroupId) {
    InActive(s, u, g) || SettledBy(s, u, g)
  }

  /** A URL is in two queued or held groups. */
  ghost predicate Duplicated(s: Server) {
    exists u, g, h :: g != h && InActive(s, u, g) && InActive(s, u, h)
  }

  lemma PoolDuplicates(p: Pool, g: GroupId, t: Server)
    requires g in p.groups && (forall h :: h in p.groups ==> h < p.next) && Armed(p.groups[g])
    requires t.pool == FailHeld(p, g)
    ensures Duplicated(t)
  {
    ArmedFailureDuplicates(p, g);
    TwiceQueued(t, p.next, p.groups[g].urls[0]);
  }

  lemma TwiceQueued(t: Server, n: GroupId, u: UrlId)
    requires |t.pool.deque| >= 4 && t.pool.deque[1] == n + 2 && t.pool.deque[3] == n
    requires n in t.pool.groups && n + 2 in t.pool.groups && u in t.pool.groups[n].urls && u in t.pool.groups[n + 2].urls
    ensures Duplicated(t)
  {
    assert InActive(t, u, n) && InActive(t, u, n + 2);
  }

  /** A failure of an armed group always puts a URL into two queued groups. */
  lemma DuplicatesDuplicate(cfg: Config, s: Server, e: Event)
    requires Shaped(s) && Enabled(cfg, s, e) && Duplicates(s, e)
    ensures Resolved(s) && Duplicated(Apply(cfg, s, e))
  {
    ShapedResolved(s);
    if e.SendFailure? {
      PoolDuplicates(s.pool, s.fleet.clients[e.client].held.value, Apply(cfg, s, e));
    } else {
      var client := s.fleet.vms[e.vm].client;
      var g := s.fleet.clients[client.value].held.value;
      assert Victim(s.fleet, e.vm) == client;
      NotifySplits(SetMajor(s.pool, g, e.code), g, GroupError);
      PoolDuplicates(Notify(SetMajor(s.pool, g, e.code), g, GroupError), g, Apply(cfg, s, e));
    }
  }

  /** No ledger is right for a server that has a URL in two places. */
  lemma DuplicatedUnbalanced(s: Server, ledger: Ledger)
    requires Duplicated(s)
    ensures !LedgerRight(s, ledger)
  {
    if LedgerRight(s, ledger) {
      forall u, g, h | InActive(s, u, g) && InActive(s, u, h)
        ensures g == h
      {
        assert GroupPlaced(s.pool, Held(s.fleet), ledger, g) && GroupPlaced(s.pool, Held(s.fleet), ledger, h);
      }
    }
  }

  /** The exact condition of conservation: after a step a ledger is right if and only if the step is not the failure
      of a client that holds an armed group. */
  lemma StepConservesExactly(cfg: Config, s: Server, e: Event, ledger: Ledger)
    requires Inv(s, ledger) && Enabled(cfg, s, e)
    ensures Resolved(s)
    ensures (exists ledger' :: LedgerRight(Apply(cfg, s, e), ledger')) <==> !Duplicates(s, e)
  {
    ShapedResolved(s);
    if Duplicates(s, e) {
      DuplicatesDuplicate(cfg, s, e);
      forall ledger' | LedgerRight(Apply(cfg, s, e), ledger')
        ensures false
      {
        DuplicatedUnbalanced(Apply(cfg, s, e), ledger');
      }
    } else {
      var ledger' := StepKeeps(cfg, s, e, ledger);
    }
  }

  // ---- The URLs of groups, in every run ----

  /** Ending a visit: changes in place, then one notification. */
  lemma CloseStems(p: Pool, q: Pool, g: GroupId, state: GroupState)
    requires g in p.groups && Touched(p, q, g) && (forall h :: h in p.groups ==> h < p.next)
    ensures (forall h :: h in q.groups ==> h < q.next) && Stems(p, Notify(q, g, state))
  {
    TouchStems(p, q, g);
    NotifyStems(q, g, state);
  }

  lemma HandStems(p: Pool, g: GroupId)
    requires g in p.groups && (forall h :: h in p.groups ==> h < p.next)
    ensures Stems(p, Notify(SetMajor(FailHeld(p, g), g, PROCESS_ERROR), g, GroupError))
  {
    FailHeldStems(p, g);
    CloseStems(FailHeld(p, g), SetMajor(FailHeld(p, g), g, PROCESS_ERROR), g, GroupError);
  }

  lemma TakeKnown(s: Server, t: Server, e: Event)
    requires Resolved(s) && UrlsKnown(s) && e.Take? && e.client in s.fleet.clients && (forall u :: u in e.batch ==> u in s.queue)
    requires t == OnTake(s, e.client, e.batch, e.ok)
    ensures UrlsKnown(t)
  {
    if s.pool.deque != [] {
      HandStems(s.pool.(deque := s.pool.deque[1..]), s.pool.deque[0]);
    } else if e.batch != [] {
      var p := NewGroup(s.pool, e.batch);
      assert PoolKnown(p);
      HandStems(p, s.pool.next);
    }
  }

  lemma VisitKnown(cfg: Config, s: Server, t: Server, e: Event)
    requires Resolved(s) && UrlsKnown(s) && Enabled(cfg, s, e) && t == Apply(cfg, s, e)
    requires e.Start? || e.SystemEvent? || e.Finish? || e.ErrorReport? || e.SocketFailure?
    ensures UrlsKnown(t)
  {
    var client := s.fleet.clients[e.client];
    if client.held.Some? {
      var g := client.held.value;
      match e
      case Start(_, alg) =>
        StartTouches(s.pool, g, alg);
        TouchStems(s.pool, t.pool, g);
      case SystemEvent(_) =>
        SetMaliciousTouches(s.pool, g, client.algorithm, true, None);
        TouchStems(s.pool, SetMalicious(s.pool, g, client.algorithm, true, None), g);
        CloseStems(s.pool, SetMalicious(s.pool, g, client.algorithm, true, None), g, GroupVisited);
      case Finish(_, alg, malicious, changed, codes) =>
        FinishTouches(s.pool, g, alg, malicious, changed, codes);
        CloseStems(s.pool, FinishPool(s.pool, g, alg, malicious, changed, codes), g, GroupVisited);
      case ErrorReport(_, alg, malicious, changed, codes, code) =>
        ErrorTouches(s.pool, g, alg, malicious, changed, codes, code);
        CloseStems(s.pool, ErrorPool(s.pool, g, alg, malicious, changed, codes, code), g,
                   if RetryCode(code) then GroupError else GroupVisited);
      case SocketFailure(_) => TouchStems(s.pool, t.pool, g);
    }
  }

  lemma DownKnown(cfg: Config, s: Server, t: Server, e: Event)
    requires Shaped(s) && Resolved(s) && UrlsKnown(s) && Enabled(cfg, s, e) && t == Apply(cfg, s, e)
    requires e.SendFailure? || e.Timeout?
    ensures UrlsKnown(t)
  {
    if e.SendFailure? {
      if s.fleet.clients[e.client].held.Some? {
        FailHeldStems(s.pool, s.fleet.clients[e.client].held.value);
      }
    } else {
      var client := s.fleet.vms[e.vm].client;
      if client.Some? && s.fleet.clients[client.value].held.Some? {
        var g := s.fleet.clients[client.value].held.value;
        var p := Notify(SetMajor(s.pool, g, e.code), g, GroupError);
        CloseStems(s.pool, SetMajor(s.pool, g, e.code), g, GroupError);
        FailHeldStems(p, g);
      }
    }
  }

  /** Every handler keeps the URLs of all groups, and those of the queue, registered. */
  lemma StepKnown(cfg: Config, s: Server, e: Event)
    requires Shaped(s) && UrlsKnown(s) && Enabled(cfg, s, e)
    ensures Resolved(s) && UrlsKnown(Apply(cfg, s, e))
  {
    ShapedResolved(s);
    var t := Apply(cfg, s, e);
    if e.Take? {
      TakeKnown(s, t, e);
    } else if e.Start? || e.SystemEvent? || e.Finish? || e.ErrorReport? || e.SocketFailure? {
      VisitKnown(cfg, s, t, e);
    } else if e.SendFailure? || e.Timeout? {
      DownKnown(cfg, s, t, e);
    } else if e.AddUrl? {
      assert PoolKnown(t.pool);
    }
  }

  // ---- Runs ----

  /** A run of the server from its start: states and the events between them. */
  predicate Run(cfg: Config, states: seq<Server>, events: seq<Event>) {
    && |states| == |events| + 1 && states[0] == INITIAL
    && forall i :: 0 <= i < |events| ==>
         Resolved(states[i]) && Enabled(cfg, states[i], events[i]) && states[i + 1] == Apply(cfg, states[i], events[i])
  }

  /** In the first n steps no client that holds an armed group goes down. */
  predicate NeverDuplicates(states: seq<Server>, events: seq<Event>, n: nat) {
    n <= |states| && n <= |events| && forall i :: 0 <= i < n ==> !Duplicates(states[i], events[i])
  }

  lemma {:induction false} RunKeeps(cfg: Config, states: seq<Server>, events: seq<Event>, n: nat) returns (ledger: Ledger)
    requires Run(cfg, states, events) && n <= |events| && NeverDuplicates(states, events, n)
    ensures Inv(states[n], ledger)
  {
    if n == 0 {
      ledger := map[];
      assert Held(INITIAL.fleet) == {};
    } else {
      ledger := RunKeeps(cfg, states, events, n - 1);
      ledger := StepKeeps(cfg, states[n - 1], events[n - 1], ledger);
    }
  }

  /** The statement of conservation, without a ledger. */
  ghost predicate Conserved(s: Server) {
    // nothing is lost: every URL is queued, in an active group or settled by one
    && (forall u :: u in s.pool.urls ==> u in s.queue || exists g :: Owns(s, u, g))
    // nothing is in two places
    && (forall u, g :: Owns(s, u, g) ==> u in s.pool.urls && u !in s.queue)
    && (forall u, g, h :: Owns(s, u, g) && Owns(s, u, h) ==> g == h)
    // a URL is settled only by a group that was visited, or that failed at least twice
    && (forall u, g :: SettledBy(s, u, g) ==>
          && Closed(s.pool.groups[g]) && u in s.pool.urls
          && (s.pool.urls[u].state == UrlVisited || s.pool.urls[u].state == UrlError))
    // active groups are non-empty, list no URL twice, and are queued or held once; no queued group is split by an error
    && (forall g :: g in s.pool.groups && Active(s.pool, Held(s.fleet), g) ==>
          |s.pool.groups[g].urls| > 0 && NoDup(s.pool.groups[g].urls) && (g in s.pool.deque ==> !Armed(s.pool.groups[g])))
    && NoDup(s.pool.deque) && (forall g :: g in s.pool.deque ==> g !in Held(s.fleet)) && HeldOnce(s.fleet)
  }

  lemma OwnerPlaced(s: Server, ledger: Ledger, u: UrlId, g: GroupId)
    requires Inv(s, ledger) && Owns(s, u, g)
    ensures u in ledger && u in s.pool.urls && u !in s.queue
    ensures ledger[u] == if InActive(s, u, g) then InGroup(g) else Settled(g)
    ensures SettledBy(s, u, g) ==>
              Closed(s.pool.groups[g]) && (s.pool.urls[u].state == UrlVisited || s.pool.urls[u].state == UrlError)
  {
    assert GroupPlaced(s.pool, Held(s.fleet), ledger, g);
    assert UrlPlaced(s.pool, Held(s.fleet), s.queue, ledger, u);
  }

  lemma InvConserves(s: Server, ledger: Ledger)
    requires Inv(s, ledger)
    ensures Conserved(s)
  {
    forall u, g | Owns(s, u, g)
      ensures u in ledger && u in s.pool.urls && u !in s.queue
      ensures ledger[u] == if InActive(s, u, g) then InGroup(g) else Settled(g)
      ensures SettledBy(s, u, g) ==>
                Closed(s.pool.groups[g]) && (s.pool.urls[u].state == UrlVisited || s.pool.urls[u].state == UrlError)
    {
      OwnerPlaced(s, ledger, u, g);
    }
    forall u | u in s.pool.urls
      ensures u in s.queue || exists g :: Owns(s, u, g)
    {
      assert UrlPlaced(s.pool, Held(s.fleet), s.queue, ledger, u);
      if ledger[u] != InQueue {
        assert Owns(s, u, ledger[u].group);
      }
    }
  }

  /** Conservation and the lifecycle invariant in every state of every run in which no client goes down holding an
      armed group. */
  lemma ConservationTheorem(cfg: Config, states: seq<Server>, events: seq<Event>, n: nat)
    requires Run(cfg, states, events) && n <= |events| && NeverDuplicates(states, events, n)
    ensures Conserved(states[n]) && Sound(states[n].fleet)
  {
    var ledger := RunKeeps(cfg, states, events, n);
    InvConserves(states[n], ledger);
  }

  lemma DuplicatedNotConserved(s: Server)
    requires Duplicated(s)
    ensures !Conserved(s)
  {
    var u, g, h :| g != h && InActive(s, u, g) && InActive(s, u, h);
    assert Owns(s, u, g) && Owns(s, u, h);
  }

  /** The condition is exact for whole runs: every state conserves its URLs if and only if no client that holds an
      armed group goes down. */
  lemma RunConservesExactly(cfg: Config, states: seq<Server>, events: seq<Event>)
    requires Run(cfg, states, events)
    ensures (forall n :: 0 <= n <= |events| ==> Conserved(states[n])) <==> NeverDuplicates(states, events, |events|)
  {
    if NeverDuplicates(states, events, |events|) {
      forall n | 0 <= n <= |events|
        ensures Conserved(states[n])
      {
        ConservationTheorem(cfg, states, events, n);
      }
    } else {
      FirstDuplicate(cfg, states, events, 0);
    }
  }

  /** The first failure of an armed group leaves a state that does not conserve its URLs. */
  lemma FirstDuplicate(cfg: Config, states: seq<Server>, events: seq<Event>, i: nat)
    requires Run(cfg, states, events) && NeverDuplicates(states, events, i) && !NeverDuplicates(states, events, |events|)
    ensures exists n :: 0 <= n <= |events| && !Conserved(states[n])
    decreases |events| - i
  {
    if Duplicates(states[i], events[i]) {
      var ledger := RunKeeps(cfg, states, events, i);
      var s := states[i];
      DuplicatesDuplicate(cfg, s, events[i]);
      assert states[i + 1] == Apply(cfg, s, events[i]);
      DuplicatedNotConserved(states[i + 1]);
    } else {
      FirstDuplicate(cfg, states, events, i + 1);
    }
  }
}
