/** Where every URL is: in the URL queue, in one queued or held group, or settled
    by a group that is closed for good. The ledger is never stored; it is the
    witness of the invariant that every group operation keeps. */
module GroupLedger {
  import opened Prelude
  import opened UrlGroups

  datatype Place = InQueue | InGroup(group: GroupId) | Settled(group: GroupId)

  type Ledger = map<UrlId, Place>

  /** A closed group explains why its URLs are settled: visited and not split, or failed at least twice. */
  predicate Closed(g: Group) {
    !Armed(g) && (g.state == GroupVisited || (g.state == GroupError && g.errorCount >= 2))
  }

  predicate Active(p: Pool, held: set<GroupId>, g: GroupId) {
    g in p.deque || g in held
  }

  predicate Allocated(p: Pool, held: set<GroupId>, queue: set<UrlId>) {
    && (forall g :: g in p.groups ==> g < p.next)
    && (forall g :: g in p.deque ==> g in p.groups)
    && held <= p.groups.Keys
    && queue <= p.urls.Keys
  }

  predicate QueuedOnce(p: Pool, held: set<GroupId>) {
    && NoDup(p.deque)
    && forall g :: g in p.deque ==> g !in held
  }

  predicate WellShaped(p: Pool, held: set<GroupId>) {
    forall g :: g in p.groups && Active(p, held, g) ==>
      |p.groups[g].urls| > 0 && NoDup(p.groups[g].urls)
  }

  /** An active group is where its URLs are; a group that is neither active nor split settled them. */
  predicate GroupPlaced(p: Pool, held: set<GroupId>, ledger: Ledger, g: GroupId)
    requires g in p.groups
  {
    Active(p, held, g) || !Armed(p.groups[g]) ==>
      forall u :: u in p.groups[g].urls ==>
        u in ledger && ledger[u] == if Active(p, held, g) then InGroup(g) else Settled(g)
  }

  predicate GroupsPlaced(p: Pool, held: set<GroupId>, ledger: Ledger) {
    forall g {:trigger GroupPlaced(p, held, ledger, g)} :: g in p.groups ==> GroupPlaced(p, held, ledger, g)
  }

  predicate UrlPlaced(p: Pool, held: set<GroupId>, queue: set<UrlId>, ledger: Ledger, u: UrlId)
    requires u in ledger && u in p.urls
  {
    match ledger[u]
    case InQueue => u in queue
    case InGroup(g) => g in p.groups && Active(p, held, g) && u in p.groups[g].urls
    case Settled(g) =>
      && g in p.groups && !Active(p, held, g) && u in p.groups[g].urls
      && Closed(p.groups[g]) && (p.urls[u].state == UrlVisited || p.urls[u].state == UrlError)
  }

  predicate UrlsPlaced(p: Pool, held: set<GroupId>, queue: set<UrlId>, ledger: Ledger) {
    && ledger.Keys == p.urls.Keys
    && (forall u {:trigger UrlPlaced(p, held, queue, ledger, u)} :: u in ledger ==> UrlPlaced(p, held, queue, ledger, u))
    && (forall u :: u in queue ==> u in ledger && ledger[u] == InQueue)
  }

  /** A queued or held group is never one that the controller would split on an error notification. */
  predicate Unarmed(p: Pool, held: set<GroupId>) {
    forall g :: g in p.groups && Active(p, held, g) ==> !Armed(p.groups[g])
  }

  /** The ledger is right. */
  predicate Balanced(p: Pool, held: set<GroupId>, queue: set<UrlId>, ledger: Ledger) {
    && Allocated(p, held, queue)
    && QueuedOnce(p, held)
    && WellShaped(p, held)
    && GroupsPlaced(p, held, ledger)
    && UrlsPlaced(p, held, queue, ledger)
  }

  // ---- What the operations do to a pool ----

  /** Only group g and its URLs differ; its members, origin and error count do not. */
  predicate Touched(p: Pool, q: Pool, g: GroupId)
    requires g in p.groups
  {
    && q.deque == p.deque && q.next == p.next
    && q.groups.Keys == p.groups.Keys && (forall h :: h in p.groups && h != g ==> q.groups[h] == p.groups[h])
    && q.groups[g].urls == p.groups[g].urls && q.groups[g].origin == p.groups[g].origin
    && q.groups[g].errorCount == p.groups[g].errorCount
    && q.urls.Keys == p.urls.Keys && (forall u :: u in p.urls && u !in p.groups[g].urls ==> q.urls[u] == p.urls[u])
  }

  /** Group g failed: one or more ERROR notifications, of which only a first failure puts g back on the deque. */
  predicate Failed(p: Pool, q: Pool, g: GroupId)
    requires g in p.groups
  {
    && q.next == p.next
    && q.deque == (if p.groups[g].errorCount == 0 then [g] + p.deque else p.deque)
    && q.groups.Keys == p.groups.Keys && (forall h :: h in p.groups && h != g ==> q.groups[h] == p.groups[h])
    && q.groups[g].urls == p.groups[g].urls && q.groups[g].origin == p.groups[g].origin
    && q.groups[g].algorithm == p.groups[g].algorithm && (q.groups[g].malicious ==> p.groups[g].malicious)
    && q.groups[g].state == GroupError && q.groups[g].errorCount > p.groups[g].errorCount
    && q.urls.Keys == p.urls.Keys && (forall u :: u in p.urls && u !in p.groups[g].urls ==> q.urls[u] == p.urls[u])
    && (forall u :: u in p.urls && u in p.groups[g].urls ==> q.urls[u].state == UrlError)
  }

  lemma SetMaliciousTouches(p: Pool, g: GroupId, algorithm: Algorithm, malicious: bool, changed: Option<set<UrlId>>)
    requires g in p.groups
    ensures var q := SetMalicious(p, g, algorithm, malicious, changed);
            Touched(p, q, g) && q.groups[g] == p.groups[g].(malicious := malicious)
  {
  }

  /** One ERROR notification of an unarmed group. */
  lemma NotifyErrorFails(p: Pool, g: GroupId)
    requires g in p.groups && (forall h :: h in p.groups ==> h < p.next)
    requires !Armed(p.groups[g])
    ensures Failed(p, Notify(p, g, GroupError), g)
    ensures Notify(p, g, GroupError).groups[g].malicious == p.groups[g].malicious
    ensures forall u :: u in p.urls ==> Notify(p, g, GroupError).urls[u].malicious == p.urls[u].malicious
  {
  }

  /** Failures compose: the group is pushed at most once however often ERROR is notified. */
  lemma FailedTwice(p: Pool, q: Pool, r: Pool, g: GroupId)
    requires g in p.groups && Failed(p, q, g) && Failed(q, r, g)
    ensures Failed(p, r, g)
  {
  }

  /** A touch before or between notifications does not change what a failure is. */
  lemma TouchedThenFailed(p: Pool, q: Pool, r: Pool, g: GroupId)
    requires g in p.groups && Touched(p, q, g) && Failed(q, r, g)
    requires q.groups[g].algorithm == p.groups[g].algorithm && (q.groups[g].malicious ==> p.groups[g].malicious)
    ensures Failed(p, r, g)
  {
  }

  /** The two notifications of a disconnect are one failure. */
  lemma FailHeldFails(p: Pool, g: GroupId)
    requires g in p.groups && (forall h :: h in p.groups ==> h < p.next)
    requires !Armed(p.groups[g])
    ensures Failed(p, FailHeld(p, g), g)
    ensures FailHeld(p, g).groups[g].errorCount == p.groups[g].errorCount + 2
    ensures FailHeld(p, g).groups[g].malicious == p.groups[g].malicious
    ensures forall u :: u in p.urls ==>
              FailHeld(p, g).urls[u].malicious ==
              if u in p.groups[g].urls && !p.groups[g].malicious then Some(false) else p.urls[u].malicious
  {
    var p1 := Notify(p, g, GroupError);
    NotifyErrorFails(p, g);
    var p2 := if p1.groups[g].malicious then p1 else SetMalicious(p1, g, Dac, false, None);
    if !p1.groups[g].malicious {
      SetMaliciousTouches(p1, g, Dac, false, None);
    }
    var p3 := SetMajor(p2, g, CONNECTION_RESET);
    assert Touched(p1, p3, g);
    NotifyErrorFails(p3, g);
    TouchedThenFailed(p1, p3, FailHeld(p, g), g);
    FailedTwice(p, p1, FailHeld(p, g), g);
  }

  // ---- What the operations do to the ledger ----

  lemma TouchedKeepsBalance(p: Pool, q: Pool, g: GroupId, held: set<GroupId>, queue: set<UrlId>, ledger: Ledger)
    requires Balanced(p, held, queue, ledger) && g in held && g in p.groups && Touched(p, q, g)
    ensures Balanced(q, held, queue, ledger)
  {
    OthersStayPlaced(p, q, g, held, held, queue, ledger, ledger);
    assert GroupPlaced(p, held, ledger, g);
    assert forall h :: h in q.groups && h != g ==> GroupPlaced(q, held, ledger, h);
    assert forall u :: u in ledger && u in p.groups[g].urls ==> UrlPlaced(q, held, queue, ledger, u);
  }

  /** A failed group is back on the deque, or its URLs are settled. */
  ghost function LedgerAfterFailure(p: Pool, g: GroupId, ledger: Ledger): Ledger
    requires g in p.groups
  {
    if p.groups[g].errorCount == 0 then ledger
    else map u | u in ledger :: if u in p.groups[g].urls then Settled(g) else ledger[u]
  }

  lemma FailedKeepsBalance(p: Pool, q: Pool, g: GroupId, held: set<GroupId>, queue: set<UrlId>, ledger: Ledger)
    requires Balanced(p, held, queue, ledger) && g in held && g in p.groups && Failed(p, q, g) && !Armed(p.groups[g])
    ensures Balanced(q, held - {g}, queue, LedgerAfterFailure(p, g, ledger))
  {
    var held' := held - {g};
    var ledger' := LedgerAfterFailure(p, g, ledger);
    assert GroupPlaced(p, held, ledger, g);
    assert forall h :: h != g ==> (Active(q, held', h) <==> Active(p, held, h));
    OthersStayPlaced(p, q, g, held, held', queue, ledger, ledger');
    assert GroupPlaced(q, held', ledger', g);
    assert forall u :: u in ledger' && u in p.groups[g].urls ==> UrlPlaced(q, held', queue, ledger', u);
  }

  /** An operation on one held group leaves every other group's URLs where they were. */
  lemma OthersStayPlaced(p: Pool, q: Pool, g: GroupId, held: set<GroupId>, held': set<GroupId>, queue: set<UrlId>,
                         ledger: Ledger, ledger': Ledger)
    requires Balanced(p, held, queue, ledger) && g in held && g in p.groups
    requires p.groups.Keys <= q.groups.Keys && (forall h :: h in p.groups && h != g ==> q.groups[h] == p.groups[h])
    requires forall h :: h in p.groups && h != g ==> (Active(q, held', h) <==> Active(p, held, h))
    requires q.urls.Keys == p.urls.Keys && (forall u :: u in p.urls && u !in p.groups[g].urls ==> q.urls[u] == p.urls[u])
    requires ledger'.Keys == ledger.Keys && (forall u :: u in ledger && u !in p.groups[g].urls ==> ledger'[u] == ledger[u])
    ensures forall u {:trigger UrlPlaced(q, held', queue, ledger', u)} ::
              u in ledger' && u !in p.groups[g].urls ==> UrlPlaced(q, held', queue, ledger', u)
    ensures forall h {:trigger GroupPlaced(q, held', ledger', h)} ::
              h in p.groups && h != g ==> GroupPlaced(q, held', ledger', h)
    ensures forall u :: u in queue ==> u in ledger' && ledger'[u] == InQueue
  {
    assert GroupPlaced(p, held, ledger, g);
    forall u | u in ledger' && u !in p.groups[g].urls
      ensures UrlPlaced(q, held', queue, ledger', u)
    {
      assert UrlPlaced(p, held, queue, ledger, u);
    }
    forall h | h in p.groups && h != g
      ensures GroupPlaced(q, held', ledger', h)
    {
      assert GroupPlaced(p, held, ledger, h);
    }
  }

  ghost function LedgerAfterClose(p: Pool, g: GroupId, ledger: Ledger): Ledger
    requires g in p.groups
  {
    map u | u in ledger :: if u in p.groups[g].urls then Settled(g) else ledger[u]
  }

  /** Group g was visited and not split. */
  predicate Finished(p: Pool, q: Pool, g: GroupId)
    requires g in p.groups
  {
    && Touched(p, q, g)
    && q.groups[g] == p.groups[g].(state := GroupVisited)
    && (forall u :: u in p.urls && u in p.groups[g].urls ==>
          (q.urls[u].state == UrlVisited || q.urls[u].state == UrlError) && q.urls[u].malicious == p.urls[u].malicious)
  }

  lemma NotifyFinishes(p: Pool, g: GroupId)
    requires g in p.groups && (forall h :: h in p.groups ==> h < p.next)
    requires !Armed(p.groups[g])
    ensures Finished(p, Notify(p, g, GroupVisited), g)
  {
  }

  /** A visited group that is not split settles its URLs. */
  lemma FinishedKeepsBalance(p: Pool, q: Pool, g: GroupId, held: set<GroupId>, queue: set<UrlId>, ledger: Ledger)
    requires Balanced(p, held, queue, ledger) && g in held && g in p.groups
    requires !Armed(p.groups[g]) && Finished(p, q, g)
    ensures Balanced(q, held - {g}, queue, LedgerAfterClose(p, g, ledger))
  {
    var held' := held - {g};
    var ledger' := LedgerAfterClose(p, g, ledger);
    assert GroupPlaced(p, held, ledger, g);
    assert forall h :: Active(q, held', h) <==> h != g && Active(p, held, h);
    OthersStayPlaced(p, q, g, held, held', queue, ledger, ledger');
    assert GroupPlaced(q, held', ledger', g);
    assert forall u :: u in ledger' && u in p.groups[g].urls ==> UrlPlaced(q, held', queue, ledger', u);
  }

  /** The relation that both split branches of the controller satisfy. */
  predicate SplitOff(p: Pool, q: Pool, g: GroupId)
    requires g in p.groups && g < p.next
  {
    var us := p.groups[g].urls;
    var b := |us| / 2;
    && q.next == p.next + 2 && q.deque == [p.next + 1, p.next] + p.deque
    && q.groups.Keys == p.groups.Keys + {p.next, p.next + 1}
    && (forall h :: h in p.groups && h != g && h < p.next ==> q.groups[h] == p.groups[h])
    && Armed(q.groups[g]) && q.groups[g].urls == us && q.groups[g].origin == p.groups[g].origin
    && q.groups[p.next] == FreshGroup(us[..b], p.groups[g].origin)
    && q.groups[p.next + 1] == FreshGroup(us[b..], p.groups[g].origin)
    && q.urls.Keys == p.urls.Keys && (forall u :: u in p.urls && u !in us ==> q.urls[u] == p.urls[u])
    && (forall u :: u in p.urls ==> q.urls[u].malicious == p.urls[u].malicious)
  }

  lemma NotifySplits(p: Pool, g: GroupId, state: GroupState)
    requires g in p.groups && (forall h :: h in p.groups ==> h < p.next)
    requires Armed(p.groups[g]) && (state == GroupVisited || state == GroupError)
    ensures SplitOff(p, Notify(p, g, state), g)
  {
  }

  ghost function LedgerAfterSplit(p: Pool, g: GroupId, ledger: Ledger): Ledger
    requires g in p.groups
  {
    var us := p.groups[g].urls;
    map u | u in ledger ::
      if u in us[..|us| / 2] then InGroup(p.next)
      else if u in us then InGroup(p.next + 1)
      else ledger[u]
  }

  lemma SplitActive(p: Pool, q: Pool, g: GroupId, held: set<GroupId>, queue: set<UrlId>, ledger: Ledger)
    requires Balanced(p, held, queue, ledger) && g in held && g in p.groups && g < p.next && SplitOff(p, q, g)
    ensures forall h :: Active(q, held - {g}, h) <==> h == p.next || h == p.next + 1 || (h != g && Active(p, held, h))
    ensures Allocated(q, held - {g}, queue) && QueuedOnce(q, held - {g})
  {
    forall h | h in q.deque
      ensures h !in held - {g} && (h == p.next || h == p.next + 1 || (h in p.deque && h != g))
    {
    }
  }

  lemma SplitKeepsBalance(p: Pool, q: Pool, g: GroupId, held: set<GroupId>, queue: set<UrlId>, ledger: Ledger)
    requires Balanced(p, held, queue, ledger) && g in held && g in p.groups && g < p.next
    requires |p.groups[g].urls| > 1 && SplitOff(p, q, g)
    ensures Balanced(q, held - {g}, queue, LedgerAfterSplit(p, g, ledger))
  {
    var held' := held - {g};
    var ledger' := LedgerAfterSplit(p, g, ledger);
    SplitActive(p, q, g, held, queue, ledger);
    SplitPlaces(p, q, g, held, queue, ledger);
    forall h | h in q.groups && Active(q, held', h)
      ensures |q.groups[h].urls| > 0 && NoDup(q.groups[h].urls)
    {
      assert h != p.next && h != p.next + 1 ==> q.groups[h] == p.groups[h];
    }
  }

  lemma SplitPlaces(p: Pool, q: Pool, g: GroupId, held: set<GroupId>, queue: set<UrlId>, ledger: Ledger)
    requires Balanced(p, held, queue, ledger) && g in held && g in p.groups && g < p.next && SplitOff(p, q, g)
    ensures GroupsPlaced(q, held - {g}, LedgerAfterSplit(p, g, ledger))
    ensures UrlsPlaced(q, held - {g}, queue, LedgerAfterSplit(p, g, ledger))
  {
    var held' := held - {g};
    var ledger' := LedgerAfterSplit(p, g, ledger);
    SplitActive(p, q, g, held, queue, ledger);
    OthersStayPlaced(p, q, g, held, held', queue, ledger, ledger');
    HalvesPlaced(p, q, g, held, held', queue, ledger);
    assert GroupPlaced(q, held', ledger', g);
    forall h | h in q.groups
      ensures GroupPlaced(q, held', ledger', h)
    {
      if h != g && h != p.next && h != p.next + 1 {
        assert h in p.groups;
      }
    }
    forall u | u in ledger'
      ensures UrlPlaced(q, held', queue, ledger', u)
    {
      if u in p.groups[g].urls {
      } else {
      }
    }
  }

  lemma HalvesPlaced(p: Pool, q: Pool, g: GroupId, held: set<GroupId>, held': set<GroupId>, queue: set<UrlId>, ledger: Ledger)
    requires g in p.groups && Active(p, held, g) && NoDup(p.groups[g].urls) && GroupPlaced(p, held, ledger, g)
    requires q.urls.Keys == ledger.Keys && p.next in q.groups && p.next + 1 in q.groups
    requires q.groups[p.next].urls == p.groups[g].urls[..|p.groups[g].urls| / 2]
    requires q.groups[p.next + 1].urls == p.groups[g].urls[|p.groups[g].urls| / 2..]
    requires Active(q, held', p.next) && Active(q, held', p.next + 1)
    ensures var ledger' := LedgerAfterSplit(p, g, ledger);
            && GroupPlaced(q, held', ledger', p.next) && GroupPlaced(q, held', ledger', p.next + 1)
            && forall u {:trigger UrlPlaced(q, held', queue, ledger', u)} ::
                 u in ledger' && u in p.groups[g].urls ==> UrlPlaced(q, held', queue, ledger', u)
  {
    HalvesDisjoint(p.groups[g].urls, |p.groups[g].urls| / 2);
  }

  lemma HalvesDisjoint(us: seq<UrlId>, b: nat)
    requires NoDup(us) && b <= |us|
    ensures forall u :: u in us[..b] ==> u in us && u !in us[b..]
    ensures forall u :: u in us[b..] ==> u in us
    ensures forall u :: u in us ==> u in us[..b] || u in us[b..]
  {
    assert us == us[..b] + us[b..];
  }

  /** Popping the head of the deque makes it a held group. */
  lemma PopKeepsBalance(p: Pool, held: set<GroupId>, queue: set<UrlId>, ledger: Ledger)
    requires Balanced(p, held, queue, ledger) && p.deque != []
    ensures Balanced(p.(deque := p.deque[1..]), held + {p.deque[0]}, queue, ledger)
    ensures p.deque[0] !in held
  {
    var q := p.(deque := p.deque[1..]);
    var held' := held + {p.deque[0]};
    assert p.deque == [p.deque[0]] + q.deque;
    assert forall h :: Active(q, held', h) <==> Active(p, held, h);
    forall u | u in ledger
      ensures UrlPlaced(q, held', queue, ledger, u)
    {
      assert UrlPlaced(p, held, queue, ledger, u);
    }
    forall h | h in p.groups
      ensures GroupPlaced(q, held', ledger, h)
    {
      assert GroupPlaced(p, held, ledger, h);
    }
  }

  /** A batch taken from the URL queue becomes a new initial group. */
  function NewGroup(p: Pool, batch: seq<UrlId>): Pool {
    p.(groups := p.groups[p.next := FreshGroup(batch, p.next)], next := p.next + 1)
  }

  ghost function LedgerAfterBatch(p: Pool, batch: seq<UrlId>, ledger: Ledger): Ledger {
    map u | u in ledger :: if u in batch then InGroup(p.next) else ledger[u]
  }

  lemma BatchKeepsBalance(p: Pool, batch: seq<UrlId>, held: set<GroupId>, queue: set<UrlId>, ledger: Ledger)
    requires Balanced(p, held, queue, ledger)
    requires |batch| > 0 && NoDup(batch) && (forall u :: u in batch ==> u in queue)
    ensures Balanced(NewGroup(p, batch), held + {p.next}, queue - (set u | u in batch), LedgerAfterBatch(p, batch, ledger))
  {
    var q := NewGroup(p, batch);
    var held' := held + {p.next};
    var queue' := queue - (set u | u in batch);
    var ledger' := LedgerAfterBatch(p, batch, ledger);
    assert forall h :: Active(q, held', h) <==> h == p.next || Active(p, held, h);
    forall u | u in ledger'
      ensures UrlPlaced(q, held', queue', ledger', u)
    {
      assert UrlPlaced(p, held, queue, ledger, u);
    }
    forall h | h in p.groups
      ensures GroupPlaced(q, held', ledger', h)
    {
      assert GroupPlaced(p, held, ledger, h);
    }
    assert GroupPlaced(q, held', ledger', p.next);
  }
}
