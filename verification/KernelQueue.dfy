/** The event queue of a driver: filled by callbacks, drained into the buffer of each poll, purged when polls stop. */
module KernelQueue {
  import opened Prelude
  import opened Bytes
  import opened EventRecords

  /** Seconds without a poll after which events are no longer queued, and after which the queue is purged. */
  const GATE := 10
  const PURGE := 15

  /** The range of the drivers' clock, which counts seconds in 32 bits. */
  const ULONG := 0x1_0000_0000

  function Clock(seconds: nat): nat {
    seconds % ULONG
  }

  datatype Event = Event(id: nat, record: Record)

  /** `produced`, `freed` and `received` record the past: the events made, the events whose memory was freed, and
      the records that user space found. */
  datatype Driver = Driver(monitor: Monitor, queue: seq<Event>, lastContact: nat,
                           produced: seq<Event>, freed: seq<Event>, received: seq<Record>)

  /** Times are real seconds; a post may come while the filter drains, and may fail to allocate its packet. */
  datatype Step =
    | Post(now: nat, record: Record, draining: bool, allocates: bool)
    | Poll(now: nat, space: nat)
    | Tick(now: nat)
    | Disconnect(now: nat)

  /** What the drivers compute as the time since the last contact: a difference of 32-bit numbers. */
  function Elapsed(d: Driver, now: nat): nat {
    (Clock(now) - d.lastContact) % ULONG
  }

  function Records(es: seq<Event>): (rs: seq<Record>)
    ensures |rs| == |es| && forall i :: 0 <= i < |es| ==> rs[i] == es[i].record
  {
    if es == [] then [] else [es[0].record] + Records(es[1..])
  }

  /** How many records a drain takes into a buffer of which some bytes are used. */
  function Taken(m: Monitor, rs: seq<Record>, space: nat, used: nat): (n: nat)
    ensures n <= |rs|
  {
    if rs != [] && used < space && space - used >= Header(m) && space - used >= |rs[0]| then
      1 + Taken(m, rs[1..], space, used + |rs[0]|)
    else 0
  }

  function Zeros(n: nat): seq<Byte> {
    seq(n, _ => 0)
  }

  /** What user space finds in a buffer filled with these records. */
  function Found(m: Monitor, rs: seq<Record>, space: nat): seq<Record> {
    var bytes := Concat(rs);
    match Walk(m, bytes + Zeros(if |bytes| <= space then space - |bytes| else 0), |bytes|)
    case None => []
    case Some(found) => found
  }

  function Purge(d: Driver): Driver {
    d.(queue := [], freed := d.freed + d.queue)
  }

  predicate Queues(d: Driver, s: Step)
    requires s.Post?
  {
    !s.draining && Elapsed(d, s.now) <= GATE && s.allocates
  }

  function Do(d: Driver, s: Step): Driver {
    match s
    case Post(now, record, draining, allocates) =>
      var e := Event(|d.produced|, record);
      var made := d.(produced := d.produced + [e]);
      if Queues(d, s) then made.(queue := d.queue + [e]) else made.(freed := d.freed + [e])
    case Poll(now, space) =>
      var n := Taken(d.monitor, Records(d.queue), space, 0);
      d.(lastContact := Clock(now), queue := d.queue[n..], freed := d.freed + d.queue[..n],
         received := d.received + Found(d.monitor, Records(d.queue[..n]), space))
    case Tick(now) => if Elapsed(d, now) > PURGE then Purge(d) else d
    case Disconnect(_) => Purge(d)
  }

  /** A driver just loaded. */
  function Loaded(m: Monitor, now: nat): Driver {
    Driver(m, [], Clock(now), [], [], [])
  }

  function After(d: Driver, steps: seq<Step>): Driver {
    if steps == [] then d else Do(After(d, steps[..|steps| - 1]), steps[|steps| - 1])
  }

  predicate Makes(m: Monitor, steps: seq<Step>) {
    forall i :: 0 <= i < |steps| ==> (steps[i].Post? ==> WellFormed(m, steps[i].record))
  }

  // ---- One drain ----

  lemma {:induction false} TakenFits(m: Monitor, rs: seq<Record>, space: nat, used: nat)
    requires AllWellFormed(m, rs) && used <= space
    ensures var n := Taken(m, rs, space, used);
            && used + |Concat(rs[..n])| <= space
            && (n < |rs| ==> used + |Concat(rs[..n + 1])| > space)
    decreases rs
  {
    if rs != [] {
      var n := Taken(m, rs, space, used);
      if n == 0 {
        assert |rs[..1][1..]| == 0;
      } else {
        TakenFits(m, rs[1..], space, used + |rs[0]|);
        assert rs[..n][1..] == rs[1..][..n - 1];
        assert n < |rs| ==> rs[..n + 1][1..] == rs[1..][..n];
      }
    }
  }

  /** A drain fits the buffer, stops only at a record that does not fit any more, and user space finds just what it took. */
  lemma DrainTheorem(m: Monitor, rs: seq<Record>, space: nat)
    requires AllWellFormed(m, rs)
    ensures var n := Taken(m, rs, space, 0);
            && |Concat(rs[..n])| <= space
            && (n < |rs| ==> |Concat(rs[..n + 1])| > space)
            && Found(m, rs[..n], space) == rs[..n]
  {
    var n := Taken(m, rs, space, 0);
    TakenFits(m, rs, space, 0);
    WalkRecovers(m, rs[..n], Zeros(space - |Concat(rs[..n])|));
  }

  // ---- Whole runs ----

  /** Every event is freed once or still queued, and never both. */
  predicate FreedOrQueued(d: Driver) {
    && (forall i :: 0 <= i < |d.produced| ==> d.produced[i].id == i)
    && multiset(d.produced) == multiset(d.freed) + multiset(d.queue)
  }

  predicate QueueOk(d: Driver) {
    AllWellFormed(d.monitor, Records(d.queue))
  }

  lemma {:induction false} RecordsConcat(es: seq<Event>, fs: seq<Event>)
    ensures Records(es + fs) == Records(es) + Records(fs)
  {
  }

  lemma SplitQueue(d: Driver, space: nat)
    ensures var n := Taken(d.monitor, Records(d.queue), space, 0);
            && d.queue[..n] + d.queue[n..] == d.queue
            && Records(d.queue[..n]) == Records(d.queue)[..n] && Records(d.queue[n..]) == Records(d.queue)[n..]
  {
  }

  lemma DoFrees(d: Driver, s: Step)
    requires FreedOrQueued(d)
    ensures FreedOrQueued(Do(d, s))
  {
    if s.Poll? {
      SplitQueue(d, s.space);
      var n := Taken(d.monitor, Records(d.queue), s.space, 0);
      assert multiset(d.queue) == multiset(d.queue[..n]) + multiset(d.queue[n..]);
    }
  }

  lemma DoKeepsRecords(d: Driver, s: Step)
    requires QueueOk(d) && (s.Post? ==> WellFormed(d.monitor, s.record))
    ensures QueueOk(Do(d, s)) && Do(d, s).monitor == d.monitor
  {
  }

  lemma {:induction false} RunKeeps(m: Monitor, t: nat, steps: seq<Step>)
    requires Makes(m, steps)
    ensures var d := After(Loaded(m, t), steps); d.monitor == m && QueueOk(d)
  {
    if steps != [] {
      RunKeeps(m, t, steps[..|steps| - 1]);
      DoKeepsRecords(After(Loaded(m, t), steps[..|steps| - 1]), steps[|steps| - 1]);
    }
  }

  /** The memory of each event is freed at most once in a run, and what is not freed is still queued. */
  lemma {:induction false} FreeTheorem(m: Monitor, t: nat, steps: seq<Step>)
    ensures var d := After(Loaded(m, t), steps);
            FreedOrQueued(d) && NoDup(d.freed + d.queue)
  {
    RunFrees(m, t, steps);
    OneOfEach(After(Loaded(m, t), steps));
  }

  lemma {:induction false} RunFrees(m: Monitor, t: nat, steps: seq<Step>)
    ensures FreedOrQueued(After(Loaded(m, t), steps))
  {
    if steps != [] {
      RunFrees(m, t, steps[..|steps| - 1]);
      DoFrees(After(Loaded(m, t), steps[..|steps| - 1]), steps[|steps| - 1]);
    }
  }

  lemma OneOfEach(d: Driver)
    requires FreedOrQueued(d)
    ensures NoDup(d.freed + d.queue)
  {
    var all := d.freed + d.queue;
    forall i, j | 0 <= i < j < |all|
      ensures all[i] != all[j]
    {
      if all[i] == all[j] {
        var e := all[i];
        assert all == all[..i] + [e] + all[i + 1..j] + [e] + all[j + 1..];
        assert multiset(all)[e] >= 2;
        OnceProduced(d.produced, e);
        assert false;
      }
    }
  }

  lemma {:induction false} OnceProduced(es: seq<Event>, e: Event)
    requires forall i :: 0 <= i < |es| ==> es[i].id == i
    ensures multiset(es)[e] <= 1
    ensures e.id >= |es| ==> multiset(es)[e] == 0
  {
    if es != [] {
      OnceProduced(es[..|es| - 1], e);
      assert es == es[..|es| - 1] + [es[|es| - 1]];
    }
  }

  // ---- Delivery ----

  /** The steps that lose events. */
  predicate Loses(d: Driver, s: Step) {
    match s
    case Post(_, _, _, _) => !Queues(d, s)
    case Poll(_, _) => false
    case Tick(now) => Elapsed(d, now) > PURGE && d.queue != []
    case Disconnect(_) => d.queue != []
  }

  /** Every record made was received or is queued, in the order it was made. */
  predicate Delivers(d: Driver) {
    d.received + Records(d.queue) == Records(d.produced)
  }

  function Lost(d: Driver): int {
    |d.produced| - |d.received| - |d.queue|
  }

  lemma DoLoses(d: Driver, s: Step)
    requires QueueOk(d)
    ensures Lost(Do(d, s)) >= Lost(d) && (Lost(Do(d, s)) > Lost(d) <==> Loses(d, s))
  {
    if s.Poll? {
      DrainTheorem(d.monitor, Records(d.queue), s.space);
      SplitQueue(d, s.space);
    }
  }

  lemma PostDelivers(d: Driver, s: Step)
    requires s.Post? && Delivers(d) && Queues(d, s)
    ensures Delivers(Do(d, s))
  {
    var e := [Event(|d.produced|, s.record)];
    RecordsConcat(d.queue, e);
    RecordsConcat(d.produced, e);
    assert d.received + Records(d.queue) + Records(e) == d.received + (Records(d.queue) + Records(e));
  }

  lemma PollDelivers(d: Driver, s: Step)
    requires s.Poll? && QueueOk(d) && Delivers(d)
    ensures Delivers(Do(d, s))
  {
    var rs := Records(d.queue);
    var n := Taken(d.monitor, rs, s.space, 0);
    DrainTheorem(d.monitor, rs, s.space);
    SplitQueue(d, s.space);
    assert d.received + rs[..n] + rs[n..] == d.received + rs;
  }

  lemma DoDelivers(d: Driver, s: Step)
    requires QueueOk(d) && Delivers(d) && !Loses(d, s)
    ensures Delivers(Do(d, s))
  {
    match s
    case Post(_, _, _, _) => PostDelivers(d, s);
    case Poll(_, _) => PollDelivers(d, s);
    case Tick(_) =>
    case Disconnect(_) =>
  }

  /** No step of a run loses an event. */
  predicate Lossless(d: Driver, steps: seq<Step>) {
    steps == [] ||
    (Lossless(d, steps[..|steps| - 1]) && !Loses(After(d, steps[..|steps| - 1]), steps[|steps| - 1]))
  }

  lemma {:induction false} RunDelivers(m: Monitor, t: nat, steps: seq<Step>)
    requires Makes(m, steps)
    ensures Lost(After(Loaded(m, t), steps)) >= 0
    ensures if Lossless(Loaded(m, t), steps) then Delivers(After(Loaded(m, t), steps)) else Lost(After(Loaded(m, t), steps)) > 0
  {
    if steps != [] {
      var before, s := steps[..|steps| - 1], steps[|steps| - 1];
      RunDelivers(m, t, before);
      RunKeeps(m, t, before);
      var d := After(Loaded(m, t), before);
      DoLoses(d, s);
      if Lossless(Loaded(m, t), before) && !Loses(d, s) {
        DoDelivers(d, s);
      }
    }
  }

  /** The exact condition: every event is delivered or queued, once and in order, if and only if no step loses one. */
  lemma DeliveryTheorem(m: Monitor, t: nat, steps: seq<Step>)
    requires Makes(m, steps)
    ensures Delivers(After(Loaded(m, t), steps)) <==> Lossless(Loaded(m, t), steps)
  {
    RunDelivers(m, t, steps);
  }

  // ---- Polls in time ----

  /** When user space last polled, or the driver was loaded. */
  function LastPoll(t: nat, steps: seq<Step>): nat {
    if steps == [] then t
    else match steps[|steps| - 1]
      case Poll(now, _) => now
      case _ => LastPoll(t, steps[..|steps| - 1])
  }

  lemma {:induction false} ContactIsLastPoll(m: Monitor, t: nat, steps: seq<Step>)
    ensures After(Loaded(m, t), steps).lastContact == Clock(LastPoll(t, steps))
  {
    if steps != [] {
      ContactIsLastPoll(m, t, steps[..|steps| - 1]);
    }
  }

  lemma ElapsedIs(m: Monitor, t: nat, steps: seq<Step>, now: nat)
    requires LastPoll(t, steps) <= now < LastPoll(t, steps) + ULONG
    ensures Elapsed(After(Loaded(m, t), steps), now) == now - LastPoll(t, steps)
  {
    ContactIsLastPoll(m, t, steps);
    ClockDifference(LastPoll(t, steps), now);
  }

  lemma ClockDifference(a: nat, b: nat)
    requires a <= b < a + ULONG
    ensures (Clock(b) - Clock(a)) % ULONG == b - a
  {
    var p, q := a / ULONG, b / ULONG;
    assert a == p * ULONG + Clock(a) && b == q * ULONG + Clock(b);
    assert q == p || q == p + 1;
  }

  /** A step comes at most the gate's time after the last poll unless it polls, allocates, and does not disconnect. */
  predicate StepInTime(polled: nat, s: Step) {
    && polled <= s.now && (s.Poll? || s.now <= polled + 10)
    && (s.Post? ==> !s.draining && s.allocates) && !s.Disconnect?
  }

  predicate InTime(t: nat, steps: seq<Step>) {
    steps == [] || (InTime(t, steps[..|steps| - 1]) && StepInTime(LastPoll(t, steps[..|steps| - 1]), steps[|steps| - 1]))
  }

  /** Polls that are never more than ten seconds apart deliver everything, even when the clock wraps around. */
  lemma PolledTheorem(m: Monitor, t: nat, steps: seq<Step>)
    requires Makes(m, steps) && InTime(t, steps)
    ensures Delivers(After(Loaded(m, t), steps))
  {
    InTimeLosesNothing(m, t, steps);
    DeliveryTheorem(m, t, steps);
  }

  lemma {:induction false} InTimeLosesNothing(m: Monitor, t: nat, steps: seq<Step>)
    requires InTime(t, steps)
    ensures Lossless(Loaded(m, t), steps)
  {
    if steps != [] {
      var before, s := steps[..|steps| - 1], steps[|steps| - 1];
      InTimeLosesNothing(m, t, before);
      if !s.Poll? {
        ElapsedIs(m, t, before, s.now);
      }
    }
  }

  /** No polls, and all later than the gate's time after the last one. */
  predicate Silent(polled: nat, steps: seq<Step>) {
    forall i :: 0 <= i < |steps| ==> !steps[i].Poll? && polled + 10 < steps[i].now < polled + 0x1_0000_0000
  }

  /** A check later than the purge's time after the last poll. */
  predicate LateTick(polled: nat, s: Step) {
    s.Tick? && s.now > polled + 15
  }

  /** A check at most fifteen seconds after the last poll changes nothing. */
  lemma EarlyTick(m: Monitor, t: nat, steps: seq<Step>, now: nat)
    requires LastPoll(t, steps) <= now <= LastPoll(t, steps) + 15
    ensures Do(After(Loaded(m, t), steps), Tick(now)) == After(Loaded(m, t), steps)
  {
    ElapsedIs(m, t, steps, now);
  }

  /** What is posted within ten seconds of the last poll is queued last, unless the filter drains or memory is short; what
      is posted later, within the clock's range, is freed at once. */
  lemma PostTheorem(m: Monitor, t: nat, steps: seq<Step>, s: Step)
    requires s.Post? && LastPoll(t, steps) <= s.now < LastPoll(t, steps) + 0x1_0000_0000
    ensures var d := After(Loaded(m, t), steps);
            var e := Event(|d.produced|, s.record);
            if s.now <= LastPoll(t, steps) + 10 && !s.draining && s.allocates
            then Do(d, s).queue == d.queue + [e] && Do(d, s).freed == d.freed
            else Do(d, s).queue == d.queue && Do(d, s).freed == d.freed + [e]
  {
    ElapsedIs(m, t, steps, s.now);
  }

  /** When polling has stopped nothing more is queued, and the first late check empties the queue until the next poll. */
  lemma SilenceTheorem(m: Monitor, t: nat, before: seq<Step>, steps: seq<Step>)
    requires Silent(LastPoll(t, before), steps)
    ensures var d := After(Loaded(m, t), before);
            && (After(d, steps).queue == d.queue || After(d, steps).queue == [])
            && ((exists i :: 0 <= i < |steps| && LateTick(LastPoll(t, before), steps[i])) ==> After(d, steps).queue == [])
  {
    ContactIsLastPoll(m, t, before);
    SilentRun(After(Loaded(m, t), before), LastPoll(t, before), steps);
  }

  lemma {:induction false} SilentRun(d: Driver, polled: nat, steps: seq<Step>)
    requires d.lastContact == Clock(polled) && Silent(polled, steps)
    ensures After(d, steps).lastContact == d.lastContact
    ensures After(d, steps).queue == d.queue || After(d, steps).queue == []
    ensures (exists i :: 0 <= i < |steps| && LateTick(polled, steps[i])) ==> After(d, steps).queue == []
  {
    if steps != [] {
      var rest, s := steps[..|steps| - 1], steps[|steps| - 1];
      SilentRun(d, polled, rest);
      SilentStep(After(d, rest), polled, s);
      if i :| 0 <= i < |steps| && LateTick(polled, steps[i]) {
        assert i < |rest| ==> LateTick(polled, rest[i]);
      }
    }
  }

  lemma SilentStep(d: Driver, polled: nat, s: Step)
    requires d.lastContact == Clock(polled) && !s.Poll? && polled + 10 < s.now < polled + 0x1_0000_0000
    ensures Do(d, s).lastContact == d.lastContact
    ensures Do(d, s).queue == d.queue || Do(d, s).queue == []
    ensures LateTick(polled, s) ==> Do(d, s).queue == []
  {
    ClockDifference(polled, s.now);
  }
}
