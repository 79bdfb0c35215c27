/** A driver with its queue updated in place, and the loop of the user-space monitor over the buffer that it fills. */
module MonitorDriver {
  import opened Prelude
  import opened Bytes
  import opened EventRecords
  import opened KernelQueue

  lemma WalkOnce(m: Monitor, buf: seq<Byte>, n: nat, at: nat)
    requires WalkFrom(m, buf, n, at).Some?
    ensures at + Header(m) <= |buf|
    ensures var next, found := at + Declared(m, buf, at), WalkFrom(m, buf, n, at).value;
            && next <= |buf| && found != [] && found[0] == buf[at..next]
            && (if next >= n then found[1..] == [] else WalkFrom(m, buf, n, next) == Some(found[1..]))
  {
  }

  /** The record at an offset, and the offset after it. */
  method ReadRecord(m: Monitor, buf: array<Byte>, n: nat, offset: nat, ghost found: seq<Record>) returns (r: Record, next: nat)
    requires WalkFrom(m, buf[..], n, offset) == Some(found)
    ensures offset < next <= buf.Length && found == [r] + found[1..]
    ensures if next < n then WalkFrom(m, buf[..], n, next) == Some(found[1..]) else found == [r]
  {
    WalkOnce(m, buf[..], n, offset);
    next := offset + Declared(m, buf[..], offset);
    r := buf[offset..next];
  }

  /** The monitor's walk, by offsets computed from the sizes that the records declare. */
  method WalkBuffer(m: Monitor, buf: array<Byte>, n: nat) returns (found: seq<Record>)
    requires Walk(m, buf[..], n).Some?
    ensures Walk(m, buf[..], n) == Some(found)
  {
    ghost var all := Walk(m, buf[..], n).value;
    ghost var rest := all;
    found := [];
    var offset, more := 0, n >= Header(m);
    while more
      invariant all == found + rest
      invariant if more then WalkFrom(m, buf[..], n, offset) == Some(rest) else rest == []
      decreases more, buf.Length - offset
    {
      var r, next := ReadRecord(m, buf, n, offset, rest);
      found, rest := found + [r], rest[1..];
      offset, more := next, next < n;
    }
    assert found + rest == found;
  }

  /** Bytes copied over those of a buffer. */
  method CopyInto(buf: array<Byte>, at: nat, r: Record)
    requires at + |r| <= buf.Length
    modifies buf
    ensures buf[..] == old(buf[..])[..at] + r + old(buf[..])[at + |r|..]
  {
    forall i | 0 <= i < |r| {
      buf[at + i] := r[i];
    }
  }

  /** After n of the records were copied into a buffer, which then holds `now`. */
  ghost predicate Copied(m: Monitor, rs: seq<Record>, before: seq<Byte>, now: seq<Byte>, n: nat, used: nat) {
    && n <= |rs| && used == |Concat(rs[..n])| <= |before|
    && now == Concat(rs[..n]) + before[used..]
    && Taken(m, rs, |before|, 0) == n + Taken(m, rs[n..], |before|, used)
  }

  lemma CopiedNext(m: Monitor, rs: seq<Record>, before: seq<Byte>, now: seq<Byte>, n: nat, used: nat)
    requires Copied(m, rs, before, now, n, used) && n < |rs|
    requires used < |before| && |before| - used >= Header(m) && |before| - used >= |rs[n]|
    ensures Copied(m, rs, before, now[..used] + rs[n] + now[used + |rs[n]|..], n + 1, used + |rs[n]|)
  {
    assert rs[n..][1..] == rs[n + 1..];
    assert rs[..n + 1] == rs[..n] + [rs[n]];
    ConcatAppend(rs[..n], [rs[n]]);
    assert Concat([rs[n]]) == rs[n] + Concat([rs[n]][1..]);
  }

  lemma CopiedNone(m: Monitor, rs: seq<Record>, before: seq<Byte>)
    ensures Copied(m, rs, before, before, 0, 0)
  {
    assert rs[0..] == rs && |rs[..0]| == 0;
  }

  lemma CopiedAll(m: Monitor, rs: seq<Record>, before: seq<Byte>, now: seq<Byte>, n: nat, used: nat)
    requires Copied(m, rs, before, now, n, used)
    requires n < |rs| ==> used >= |before| || |before| - used < Header(m) || |before| - used < |rs[n]|
    ensures n == Taken(m, rs, |before|, 0)
  {
  }

  /** What a round's walk finds is what the driver took. */
  lemma RoundFinds(m: Monitor, rs: seq<Record>, n: nat, space: nat)
    requires AllWellFormed(m, rs) && n == Taken(m, rs, space, 0)
    ensures |Concat(rs[..n])| <= space
    ensures Walk(m, Concat(rs[..n]) + Zeros(space)[|Concat(rs[..n])|..], |Concat(rs[..n])|) == Some(rs[..n])
    ensures Found(m, rs[..n], space) == rs[..n]
  {
    DrainTheorem(m, rs, space);
    WalkRecovers(m, rs[..n], Zeros(space)[|Concat(rs[..n])|..]);
  }

  class MonitorDriver {
    const monitor: Monitor
    var queue: seq<Event>
    var lastContact: nat
    ghost var produced: seq<Event>
    ghost var freed: seq<Event>
    ghost var received: seq<Record>

    ghost function State(): Driver
      reads this
    {
      Driver(monitor, queue, lastContact, produced, freed, received)
    }

    constructor (m: Monitor, now: nat)
      ensures State() == Loaded(m, now)
    {
      monitor := m;
      queue, lastContact := [], Clock(now);
      produced, freed, received := [], [], [];
    }

    method QueueEvent(e: Event, now: nat, allocates: bool) returns (inserted: bool)
      modifies `queue
      ensures inserted == (Elapsed(State(), now) <= GATE && allocates)
      ensures queue == if inserted then old(queue) + [e] else old(queue)
    {
      inserted := false;
      if (Clock(now) - lastContact) % ULONG <= GATE {
        if allocates {
          queue := queue + [e];
          inserted := true;
        }
      }
    }

    /** The callback after an operation, with the event that was allocated before it. */
    method Operation(e: Event, draining: bool, now: nat, allocates: bool)
      requires e.id == |produced|
      modifies this
      ensures State() == Do(old(State()), Post(now, e.record, draining, allocates))
    {
      produced := produced + [e];
      if draining {
        freed := freed + [e];
        return;
      }
      var inserted := QueueEvent(e, now, allocates);
      if !inserted {
        freed := freed + [e];
      }
    }

    method FreeQueuedEvents()
      modifies `queue, `freed
      ensures State() == Purge(old(State()))
    {
      while queue != []
        invariant freed + queue == old(freed + queue)
        decreases |queue|
        modifies `queue, `freed
      {
        var head := queue[0];
        assert queue == [head] + queue[1..];
        queue := queue[1..];
        freed := freed + [head];
      }
    }

    method ConnectionChecker(now: nat)
      modifies `queue, `freed
      ensures State() == Do(old(State()), Tick(now))
    {
      if (Clock(now) - lastContact) % ULONG > PURGE {
        FreeQueuedEvents();
      }
    }

    method OnDisconnect(now: nat)
      modifies `queue, `freed
      ensures State() == Do(old(State()), Disconnect(now))
    {
      FreeQueuedEvents();
    }

    /** The head of the queue goes into the buffer, or back when it does not fit. */
    method TakeHead(buf: array<Byte>, used: nat) returns (size: nat, fits: bool)
      requires queue != [] && WellFormed(monitor, queue[0].record) && used <= buf.Length
      modifies `queue, `freed, buf
      ensures var r := old(queue)[0].record;
              && size == |r| && fits == (buf.Length - used >= |r|)
              && (if fits then buf[..] == old(buf[..])[..used] + r + old(buf[..])[used + |r|..] else buf[..] == old(buf[..]))
      ensures queue == if fits then old(queue)[1..] else old(queue)
      ensures freed == if fits then old(freed) + [old(queue)[0]] else old(freed)
    {
      var head := queue[0];
      queue := queue[1..];
      size := Declared(monitor, head.record, 0);
      fits := buf.Length - used >= size;
      if fits {
        CopyInto(buf, used, head.record);
        freed := freed + [head];
      } else {
        queue := [head] + queue;
      }
    }

    /** The next of the events es, after n of them. */
    method NextEvent(buf: array<Byte>, used: nat, ghost es: seq<Event>, ghost before: seq<Byte>, ghost n: nat)
      returns (size: nat, fits: bool)
      requires AllWellFormed(monitor, Records(es)) && n < |es| && queue == es[n..]
      requires Copied(monitor, Records(es), before, buf[..], n, used)
      requires used < buf.Length && buf.Length - used >= Header(monitor)
      modifies `queue, `freed, buf
      ensures fits == (buf.Length - used >= |es[n].record|)
      ensures Copied(monitor, Records(es), before, buf[..], if fits then n + 1 else n, if fits then used + size else used)
      ensures queue == if fits then es[n + 1..] else es[n..]
      ensures freed == if fits then old(freed) + [es[n]] else old(freed)
    {
      ghost var rs, was := Records(es), buf[..];
      ghost var r := rs[n];
      assert r == queue[0].record && WellFormed(monitor, r);
      size, fits := TakeHead(buf, used);
      if fits {
        assert Copied(monitor, rs, before, was[..used] + r + was[used + |r|..], n + 1, used + |r|) by {
          CopiedNext(monitor, rs, before, was, n, used);
        }
        assert es[n..][1..] == es[n + 1..];
      } else {
        assert buf[..] == was;
      }
    }

    method Drain(buf: array<Byte>) returns (used: nat, ghost n: nat)
      requires QueueOk(State())
      modifies `queue, `freed, buf
      ensures n == Taken(monitor, Records(old(queue)), buf.Length, 0)
      ensures Copied(monitor, Records(old(queue)), old(buf[..]), buf[..], n, used)
      ensures queue == old(queue)[n..] && freed == old(freed) + old(queue)[..n]
    {
      used, n := 0, 0;
      ghost var es, before := queue, buf[..];
      CopiedNone(monitor, Records(es), before);
      var size, fits := 0, true;
      while fits && queue != [] && used < buf.Length && buf.Length - used >= Header(monitor)
        invariant n <= |es| && queue == es[n..] && freed == old(freed) + es[..n]
        invariant Copied(monitor, Records(es), before, buf[..], n, used)
        invariant !fits ==> n < |es| && buf.Length - used < |es[n].record|
        decreases fits, |queue|
        modifies `queue, `freed, buf
      {
        size, fits := NextEvent(buf, used, es, before, n);
        if fits {
          used, n := used + size, n + 1;
        }
      }
      CopiedAll(monitor, Records(es), before, buf[..], n, used);
    }

    method GetEvents(buf: array<Byte>, now: nat) returns (used: nat)
      requires QueueOk(State())
      modifies `queue, `lastContact, `freed, buf
      ensures var n := Taken(monitor, Records(old(queue)), buf.Length, 0);
              && Copied(monitor, Records(old(queue)), old(buf[..]), buf[..], n, used)
              && queue == old(queue)[n..] && freed == old(freed) + old(queue)[..n]
      ensures lastContact == Clock(now)
    {
      lastContact := Clock(now);
      ghost var n;
      used, n := Drain(buf);
    }

    /** One round of the monitor: a zeroed buffer is filled by the driver and walked. */
    method Round(now: nat, space: nat)
      requires QueueOk(State())
      modifies this
      ensures State() == Do(old(State()), Poll(now, space))
    {
      ghost var rs := Records(queue);
      ghost var n := Taken(monitor, rs, space, 0);
      var buf := new Byte[space];
      forall i | 0 <= i < space {
        buf[i] := 0;
      }
      assert buf[..] == Zeros(space);
      var used := GetEvents(buf, now);
      RoundFinds(monitor, rs, n, space);
      var found := WalkBuffer(monitor, buf, used);
      received := received + found;
      SplitQueue(old(State()), space);
    }
  }
}
