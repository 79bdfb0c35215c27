/** A server whose clients all visit with one algorithm, and report a result only for a visit
    they have started, never arms a held group, so no failure duplicates. With mixed algorithms
    it can, and a failure then queues the same URLs twice. */
module OneAlgorithm {
  import opened Prelude
  import opened UrlGroups
  import opened Lifecycle
  import opened GroupLedger
  import opened Scheduler
  import opened Holding
  import opened Conservation

  /** The client's side of the protocol: one algorithm, and results only for started visits. */
  predicate Proper(s: Server, e: Event, alg: Algorithm) {
    match e
    case Start(_, a) => a == alg
    case OtherVisit(_, a) => a == alg
    case Finish(c, a, _, _, _) => a == alg && c in s.fleet.clients && s.fleet.clients[c].state == Visiting
    case ErrorReport(c, a, _, _, _, _) => a == alg && c in s.fleet.clients && s.fleet.clients[c].state == Visiting
    case _ => true
  }

  /** Only a started visit can flag a group. */
  predicate UniformPool(p: Pool, alg: Algorithm) {
    forall g {:trigger p.groups[g]} :: g in p.groups ==>
      && (p.groups[g].algorithm == NoAlgorithm || p.groups[g].algorithm == alg)
      && (p.groups[g].malicious ==> p.groups[g].algorithm == alg)
  }

  predicate UniformClient(p: Pool, client: Client, alg: Algorithm) {
    client.state == Visiting ==>
      && client.algorithm == alg && client.held.Some? && client.held.value in p.groups
      && p.groups[client.held.value].algorithm == alg
  }

  predicate UniformClients(p: Pool, f: Fleet, alg: Algorithm) {
    forall c {:trigger f.clients[c]} :: c in f.clients ==> UniformClient(p, f.clients[c], alg)
  }

  predicate Uniform(s: Server, alg: Algorithm) {
    UniformPool(s.pool, alg) && UniformClients(s.pool, s.fleet, alg)
  }

  /** Existing groups keep their algorithm or take the common one; new ones have none. */
  predicate Follows(p: Pool, q: Pool, alg: Algorithm) {
    && UniformPool(q, alg) && p.groups.Keys <= q.groups.Keys
    && forall g {:trigger q.groups[g]} :: g in p.groups ==>
         q.groups[g].algorithm == p.groups[g].algorithm || q.groups[g].algorithm == alg
  }

  /** Existing groups keep their algorithm and verdict; new ones have neither. */
  predicate Copies(p: Pool, q: Pool) {
    && p.groups.Keys <= q.groups.Keys
    && forall g {:trigger q.groups[g]} :: g in q.groups ==>
         if g in p.groups
         then q.groups[g].algorithm == p.groups[g].algorithm && q.groups[g].malicious == p.groups[g].malicious
         else q.groups[g].algorithm == NoAlgorithm && !q.groups[g].malicious
  }

  lemma EnterCopies(p: Pool, g: GroupId, state: GroupState)
    requires g in p.groups
    ensures Copies(p, Enter(p, g, state))
  {
  }

  lemma UpdateCopies(p: Pool, g: GroupId)
    requires g in p.groups && (forall h :: h in p.groups ==> h < p.next)
    ensures Copies(p, Update(p, g))
  {
    var s := Split(p, g);
    assert Copies(p, s);
    assert FailUrls(s, g).groups == s.groups && FailUrls(p, g).groups == p.groups;
    assert Copies(p, Requeue(FailUrls(p, g), g));
  }

  lemma CopiesFollow(p: Pool, q: Pool, r: Pool, alg: Algorithm)
    requires UniformPool(p, alg) && Copies(p, q) && Copies(q, r)
    ensures Follows(p, r, alg)
  {
  }

  lemma NotifyFollows(p: Pool, g: GroupId, state: GroupState, alg: Algorithm)
    requires g in p.groups && (forall h :: h in p.groups ==> h < p.next) && UniformPool(p, alg)
    ensures Follows(p, Notify(p, g, state), alg)
  {
    EnterCopies(p, g, state);
    UpdateCopies(Enter(p, g, state), g);
    CopiesFollow(p, Enter(p, g, state), Notify(p, g, state), alg);
  }

  lemma MaliciousFollows(p: Pool, q: Pool, g: GroupId, malicious: bool, alg: Algorithm)
    requires g in p.groups && UniformPool(p, alg) && (malicious ==> p.groups[g].algorithm == alg)
    requires Touched(p, q, g) && q.groups[g] == p.groups[g].(malicious := malicious)
    ensures Follows(p, q, alg)
  {
  }

  lemma FollowsTrans(p: Pool, q: Pool, r: Pool, alg: Algorithm)
    requires Follows(p, q, alg) && Follows(q, r, alg)
    ensures Follows(p, r, alg)
  {
  }

  lemma FailHeldFollows(p: Pool, g: GroupId, alg: Algorithm)
    requires g in p.groups && (forall h :: h in p.groups ==> h < p.next) && UniformPool(p, alg)
    ensures Follows(p, FailHeld(p, g), alg)
  {
    var p1 := Notify(p, g, GroupError);
    NotifyFollows(p, g, GroupError, alg);
    var p2 := if p1.groups[g].malicious then p1 else SetMalicious(p1, g, Dac, false, None);
    if !p1.groups[g].malicious {
      SetMaliciousTouches(p1, g, Dac, false, None);
      MaliciousFollows(p1, p2, g, false, alg);
    }
    var p3 := SetMajor(p2, g, CONNECTION_RESET);
    assert Follows(p2, p3, alg);
    NotifyFollows(p3, g, GroupError, alg);
    FollowsTrans(p, p1, p2, alg);
    FollowsTrans(p, p2, p3, alg);
    FollowsTrans(p, p3, FailHeld(p, g), alg);
  }

  /** A step that changes one client and follows on the pool keeps the server uniform. */
  lemma UniformAfter(s: Server, t: Server, c: ClientId, alg: Algorithm)
    requires Uniform(s, alg) && Follows(s.pool, t.pool, alg)
    requires forall d {:trigger t.fleet.clients[d]} :: d in t.fleet.clients && d != c ==>
               d in s.fleet.clients && t.fleet.clients[d] == s.fleet.clients[d]
    requires c in t.fleet.clients ==> UniformClient(t.pool, t.fleet.clients[c], alg)
    ensures Uniform(t, alg)
  {
  }

  lemma HandUniform(s: Server, c: ClientId, g: GroupId, ok: bool, alg: Algorithm)
    requires Wired(s.fleet) && Uniform(s, alg) && c in s.fleet.clients && g in s.pool.groups
    requires forall h :: h in s.pool.groups ==> h < s.pool.next
    ensures Uniform(Hand(s, c, g, ok), alg)
  {
    if !ok {
      var p := FailHeld(s.pool, g);
      FailHeldFollows(s.pool, g, alg);
      var q := SetMajor(p, g, PROCESS_ERROR);
      assert Follows(p, q, alg);
      NotifyFollows(q, g, GroupError, alg);
      FollowsTrans(s.pool, p, q, alg);
      FollowsTrans(s.pool, q, Notify(q, g, GroupError), alg);
    }
    UniformAfter(s, Hand(s, c, g, ok), c, alg);
  }

  lemma TakeUniform(s: Server, c: ClientId, batch: seq<UrlId>, ok: bool, alg: Algorithm)
    requires Shaped(s) && Uniform(s, alg) && c in s.fleet.clients
    ensures Resolved(s) && Uniform(OnTake(s, c, batch, ok), alg)
  {
    if s.pool.deque != [] {
      HandUniform(s.(pool := s.pool.(deque := s.pool.deque[1..])), c, s.pool.deque[0], ok, alg);
    } else if batch != [] {
      HandUniform(s.(pool := NewGroup(s.pool, batch), queue := s.queue - (set u | u in batch)), c, s.pool.next, ok, alg);
    }
  }

  lemma CloseFollows(p: Pool, q: Pool, g: GroupId, malicious: bool, state: GroupState, alg: Algorithm)
    requires g in p.groups && UniformPool(p, alg) && (malicious ==> p.groups[g].algorithm == alg)
    requires Touched(p, q, g) && q.groups[g].malicious == malicious && q.groups[g].algorithm == p.groups[g].algorithm
    requires forall h :: h in q.groups ==> h < q.next
    ensures Follows(p, Notify(q, g, state), alg)
  {
    assert Follows(p, q, alg);
    NotifyFollows(q, g, state, alg);
    FollowsTrans(p, q, Notify(q, g, state), alg);
  }

  lemma SystemEventUniform(s: Server, c: ClientId, alg: Algorithm)
    requires Shaped(s) && Uniform(s, alg) && Speaks(s, c)
    ensures Resolved(s) && Uniform(OnSystemEvent(s, c), alg)
  {
    var client := s.fleet.clients[c];
    if client.state == Visiting && client.held.Some? {
      var g := client.held.value;
      var many := |s.pool.groups[g].urls| > 1;
      var q := SetMalicious(s.pool, g, client.algorithm, true, None);
      SetMaliciousTouches(s.pool, g, client.algorithm, true, None);
      MaliciousFollows(s.pool, q, g, true, alg);
      if client.algorithm == Dac && many {
        CloseFollows(s.pool, q, g, true, GroupVisited, alg);
        UniformAfter(s, OnSystemEvent(s, c), c, alg);
      } else if !(client.algorithm == Bulk && many) {
        UniformAfter(s, OnSystemEvent(s, c), c, alg);
      }
    }
  }

  lemma FinishUniform(cfg: Config, s: Server, c: ClientId, malicious: bool, changed: set<UrlId>,
                      codes: map<UrlId, int>, alg: Algorithm)
    requires Shaped(s) && Uniform(s, alg) && Speaks(s, c) && s.fleet.clients[c].state == Visiting
    ensures Resolved(s) && Uniform(OnFinish(cfg, s, c, alg, malicious, changed, codes), alg)
  {
    var g := s.fleet.clients[c].held.value;
    FinishTouches(s.pool, g, alg, malicious, changed, codes);
    CloseFollows(s.pool, FinishPool(s.pool, g, alg, malicious, changed, codes), g,
                 s.pool.groups[g].malicious || malicious, GroupVisited, alg);
    UniformAfter(s, OnFinish(cfg, s, c, alg, malicious, changed, codes), c, alg);
  }

  lemma ErrorUniform(cfg: Config, s: Server, c: ClientId, malicious: bool, changed: set<UrlId>,
                     codes: map<UrlId, int>, code: int, alg: Algorithm)
    requires Shaped(s) && Uniform(s, alg) && Speaks(s, c) && s.fleet.clients[c].state == Visiting
    ensures Resolved(s) && Uniform(OnError(cfg, s, c, alg, malicious, changed, codes, code), alg)
  {
    var g := s.fleet.clients[c].held.value;
    ErrorTouches(s.pool, g, alg, malicious, changed, codes, code);
    CloseFollows(s.pool, ErrorPool(s.pool, g, alg, malicious, changed, codes, code), g, malicious,
                 if RetryCode(code) then GroupError else GroupVisited, alg);
    UniformAfter(s, OnError(cfg, s, c, alg, malicious, changed, codes, code), c, alg);
  }

  lemma StartUniform(s: Server, c: ClientId, alg: Algorithm)
    requires Shaped(s) && Uniform(s, alg) && Speaks(s, c)
    ensures Resolved(s) && Uniform(OnStart(s, c, alg), alg)
  {
    if s.fleet.clients[c].held.Some? {
      var g := s.fleet.clients[c].held.value;
      var p := SetAlgorithm(s.pool, g, alg);
      assert Follows(s.pool, p, alg);
      NotifyFollows(p, g, GroupVisiting, alg);
      FollowsTrans(s.pool, p, Notify(p, g, GroupVisiting), alg);
    }
    UniformAfter(s, OnStart(s, c, alg), c, alg);
  }

  lemma DownUniform(s: Server, c: ClientId, alg: Algorithm)
    requires Shaped(s) && Uniform(s, alg) && c in s.fleet.clients
    ensures Resolved(s) && Uniform(OnSendFailure(s, c), alg)
  {
    if s.fleet.clients[c].held.Some? {
      FailHeldFollows(s.pool, s.fleet.clients[c].held.value, alg);
    }
    UniformAfter(s, OnSendFailure(s, c), c, alg);
  }

  lemma TimeoutUniform(s: Server, v: VmId, code: int, alg: Algorithm)
    requires Shaped(s) && Uniform(s, alg) && v in s.fleet.vms
    ensures Resolved(s) && Uniform(OnTimeout(s, v, code), alg)
  {
    var f := s.fleet;
    if f.vms[v].client.Some? {
      var c := f.vms[v].client.value;
      assert Victim(f, v) == Some(c);
      if f.clients[c].held.Some? {
        var g := f.clients[c].held.value;
        var p := SetMajor(s.pool, g, code);
        var q := Notify(p, g, GroupError);
        assert Follows(s.pool, p, alg);
        NotifyFollows(p, g, GroupError, alg);
        FailHeldFollows(q, g, alg);
        FollowsTrans(s.pool, p, q, alg);
        FollowsTrans(s.pool, q, FailHeld(q, g), alg);
      }
      UniformAfter(s, OnTimeout(s, v, code), c, alg);
    }
  }

  lemma QuietUniform(cfg: Config, s: Server, e: Event, alg: Algorithm)
    requires Shaped(s) && Enabled(cfg, s, e) && Uniform(s, alg) && Proper(s, e, alg)
    requires e.Connect? || e.OtherVisit? || e.SocketFailure?
    ensures Resolved(s) && Uniform(Apply(cfg, s, e), alg)
  {
    UniformAfter(s, Apply(cfg, s, e), e.client, alg);
  }

  lemma ProperNeverArms(s: Server, e: Event, alg: Algorithm)
    requires Shaped(s) && Calm(s) && Uniform(s, alg) && Proper(s, e, alg)
    requires e.Start? || e.SystemEvent? ==> Speaks(s, e.client)
    ensures !Arms(s, e)
  {
    if Arms(s, e) {
      HeldGroup(s, e.client);
      assert false;
    }
  }

  /** A proper step does not arm a held group and keeps the server uniform. */
  lemma ProperStep(cfg: Config, s: Server, e: Event, alg: Algorithm)
    requires Shaped(s) && Calm(s) && Enabled(cfg, s, e) && Uniform(s, alg) && Proper(s, e, alg)
    ensures !Arms(s, e) && Resolved(s) && Uniform(Apply(cfg, s, e), alg)
  {
    ProperNeverArms(s, e, alg);
    match e
    case AddUrl(u) =>
    case AddVm(v) =>
    case Connect(c, v, ok) => QuietUniform(cfg, s, e, alg);
    case Take(c, batch, ok) => TakeUniform(s, c, batch, ok, alg);
    case Start(c, a) => StartUniform(s, c, alg);
    case OtherVisit(c, a) => QuietUniform(cfg, s, e, alg);
    case SystemEvent(c) => SystemEventUniform(s, c, alg);
    case Finish(c, a, malicious, changed, codes) => FinishUniform(cfg, s, c, malicious, changed, codes, alg);
    case ErrorReport(c, a, malicious, changed, codes, code) => ErrorUniform(cfg, s, c, malicious, changed, codes, code, alg);
    case SocketFailure(c) => QuietUniform(cfg, s, e, alg);
    case SendFailure(c) => DownUniform(s, c, alg);
    case Timeout(v, code) => TimeoutUniform(s, v, code, alg);
    case Revert(outcome) =>
  }

  predicate ProperRun(states: seq<Server>, events: seq<Event>, alg: Algorithm) {
    |events| <= |states| && forall i :: 0 <= i < |events| ==> Proper(states[i], events[i], alg)
  }

  lemma {:induction false} ProperRunKeeps(cfg: Config, states: seq<Server>, events: seq<Event>, alg: Algorithm, n: nat)
    returns (ledger: Ledger)
    requires Run(cfg, states, events) && ProperRun(states, events, alg) && n <= |events|
    ensures Inv(states[n], ledger) && Calm(states[n]) && Uniform(states[n], alg)
  {
    if n == 0 {
      ledger := RunKeeps(cfg, states, events, 0);
      assert Held(INITIAL.fleet) == {};
    } else {
      ledger := ProperRunKeeps(cfg, states, events, alg, n - 1);
      var s := states[n - 1];
      ProperStep(cfg, s, events[n - 1], alg);
      CalmNeverDuplicates(cfg, s, events[n - 1]);
      ledger := StepKeeps(cfg, s, events[n - 1], ledger);
    }
  }

  /** Under one algorithm and the start-before-result protocol, every run conserves its URLs, whatever
      is reported and whatever fails. */
  lemma ProperRunsConserve(cfg: Config, states: seq<Server>, events: seq<Event>, alg: Algorithm, n: nat)
    requires Run(cfg, states, events) && ProperRun(states, events, alg) && n <= |events|
    ensures NeverDuplicates(states, events, n) && Conserved(states[n]) && Sound(states[n].fleet)
  {
    forall i | 0 <= i < n
      ensures !Duplicates(states[i], events[i])
    {
      var ledger := ProperRunKeeps(cfg, states, events, alg, i);
      CalmNeverDuplicates(cfg, states[i], events[i]);
    }
    ConservationTheorem(cfg, states, events, n);
  }

  // ---- What goes wrong with mixed algorithms ----

  /** Client c visits group g of several URLs sequentially; g may already be flagged. */
  predicate VisitsMany(s: Server, c: ClientId, g: GroupId, flagged: bool) {
    && Speaks(s, c) && s.fleet.clients[c].held == Some(g) && g in s.pool.groups
    && s.fleet.clients[c].state == Visiting && s.fleet.clients[c].algorithm == Sequential
    && |s.pool.groups[g].urls| > 1 && s.pool.groups[g].algorithm == Sequential
    && (flagged ==> s.pool.groups[g].malicious)
  }

  /** A step that only touches a held group keeps the deque and the held groups apart. */
  lemma TouchedShaped(s: Server, t: Server, g: GroupId)
    requires Shaped(s) && FleetRight(t) && Held(t.fleet) == Held(s.fleet) && g in s.pool.groups && Touched(s.pool, t.pool, g)
    ensures Shaped(t)
  {
  }

  lemma StartShaped(s: Server, t: Server, c: ClientId, alg: Algorithm)
    requires Shaped(s) && Resolved(s) && Speaks(s, c) && s.fleet.clients[c].held.Some? && t == OnStart(s, c, alg)
    ensures Shaped(t)
  {
    var g := s.fleet.clients[c].held.value;
    StepHeld(Config(0, false), s, Start(c, alg));
    StartTouches(s.pool, g, alg);
    TouchedShaped(s, t, g);
  }

  lemma SequentialStart(s: Server, t: Server, c: ClientId)
    requires Shaped(s) && Resolved(s) && Speaks(s, c) && s.fleet.clients[c].held.Some?
    requires |s.pool.groups[s.fleet.clients[c].held.value].urls| > 1 && t == OnStart(s, c, Sequential)
    ensures Shaped(t) && VisitsMany(t, c, s.fleet.clients[c].held.value, false)
  {
    StartShaped(s, t, c, Sequential);
    StartTouches(s.pool, s.fleet.clients[c].held.value, Sequential);
  }

  lemma SequentialEvent(s: Server, t: Server, c: ClientId, g: GroupId)
    requires Shaped(s) && Resolved(s) && VisitsMany(s, c, g, false) && t == OnSystemEvent(s, c)
    ensures Shaped(t) && VisitsMany(t, c, g, true)
  {
    SetMaliciousTouches(s.pool, g, Sequential, true, None);
    StepHeld(Config(0, false), s, SystemEvent(c));
    TouchedShaped(s, t, g);
  }

  lemma DacStart(s: Server, t: Server, c: ClientId, g: GroupId)
    requires Shaped(s) && Resolved(s) && VisitsMany(s, c, g, true) && t == OnStart(s, c, Dac)
    ensures Shaped(t) && Arms(s, Start(c, Dac)) && HoldsArmed(t, c)
  {
    StartShaped(s, t, c, Dac);
    StartTouches(s.pool, g, Dac);
  }

  /** A client that holds at least two URLs, starts its visit as sequential, reports a system event and
      starts again as dac arms its group; when it then drops out, one URL is in two queued groups. */
  lemma MixedAlgorithmsDuplicate(s: Server, c: ClientId)
    requires Shaped(s) && Speaks(s, c) && s.fleet.clients[c].held.Some?
    requires |s.pool.groups[s.fleet.clients[c].held.value].urls| > 1
    ensures Resolved(s)
    ensures var s1 := OnStart(s, c, Sequential);
            Resolved(s1) && c in s1.fleet.clients
    ensures var s2 := OnSystemEvent(OnStart(s, c, Sequential), c);
            Resolved(s2) && c in s2.fleet.clients && Arms(s2, Start(c, Dac))
    ensures var s3 := OnStart(OnSystemEvent(OnStart(s, c, Sequential), c), c, Dac);
            Shaped(s3) && Duplicates(s3, SendFailure(c)) && Duplicated(OnSendFailure(s3, c))
  {
    var g := s.fleet.clients[c].held.value;
    var s1 := OnStart(s, c, Sequential);
    SequentialStart(s, s1, c);
    var s2 := OnSystemEvent(s1, c);
    SequentialEvent(s1, s2, c, g);
    var s3 := OnStart(s2, c, Dac);
    DacStart(s2, s3, c, g);
    DuplicatesDuplicate(Config(0, false), s3, SendFailure(c));
  }
}
