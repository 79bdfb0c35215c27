/** Event records of variable length, as the drivers lay them out in the buffer of the user-space monitors. */
module EventRecords {
  import opened Prelude
  import opened Bytes

  datatype Monitor = Files | Registry

  type Record = seq<Byte>

  /** The fixed part of a record. */
  function Header(m: Monitor): nat {
    match m
    case Files => 40
    case Registry => 36
  }

  /** The size a record declares: a file event ends with its path, a registry event with its path and its data. */
  function Declared(m: Monitor, buf: seq<Byte>, at: nat): (size: nat)
    requires at + Header(m) <= |buf|
    ensures size >= Header(m)
  {
    match m
    case Files => Header(m) + U32At(buf, at + 36)
    case Registry => Header(m) + U32At(buf, at + 32) + U32At(buf, at + 28)
  }

  /** The driver allocates a record with just the size that it declares. */
  predicate WellFormed(m: Monitor, r: Record) {
    |r| >= Header(m) && Declared(m, r, 0) == |r|
  }

  predicate AllWellFormed(m: Monitor, rs: seq<Record>) {
    forall i :: 0 <= i < |rs| ==> WellFormed(m, rs[i])
  }

  function Concat(rs: seq<Record>): seq<Byte> {
    if rs == [] then [] else rs[0] + Concat(rs[1..])
  }

  /** The records that user space finds from offset at, of which n bytes of buf are filled; none if one runs past the buffer. */
  function WalkFrom(m: Monitor, buf: seq<Byte>, n: nat, at: nat): Option<seq<Record>>
    decreases |buf| - at
  {
    if at + Header(m) > |buf| then None else
      var next := at + Declared(m, buf, at);
      if next > |buf| then None
      else if next >= n then Some([buf[at..next]])
      else
        match WalkFrom(m, buf, n, next)
        case None => None
        case Some(rest) => Some([buf[at..next]] + rest)
  }

  function Walk(m: Monitor, buf: seq<Byte>, n: nat): Option<seq<Record>> {
    if n >= Header(m) then WalkFrom(m, buf, n, 0) else Some([])
  }

  predicate HoldsAt(buf: seq<Byte>, at: nat, part: seq<Byte>) {
    at + |part| <= |buf| && buf[at..at + |part|] == part
  }

  lemma HoldsParts(buf: seq<Byte>, at: nat, a: seq<Byte>, b: seq<Byte>)
    requires HoldsAt(buf, at, a + b)
    ensures HoldsAt(buf, at, a) && HoldsAt(buf, at + |a|, b)
  {
    var both := buf[at..at + |a| + |b|];
    assert both[..|a|] == a && both[|a|..] == b;
    assert buf[at..at + |a|] == both[..|a|] && buf[at + |a|..at + |a| + |b|] == both[|a|..];
  }

  lemma DeclaredInPlace(m: Monitor, buf: seq<Byte>, at: nat, r: Record)
    requires WellFormed(m, r) && HoldsAt(buf, at, r)
    ensures Declared(m, buf, at) == |r|
  {
    match m
    case Files => U32InSlice(buf, at, at + |r|, 36);
    case Registry => U32InSlice(buf, at, at + |r|, 32); U32InSlice(buf, at, at + |r|, 28);
  }

  /** One step of the walk, over a record in the buffer. */
  lemma WalkStep(m: Monitor, buf: seq<Byte>, n: nat, at: nat, r: Record, rest: seq<Record>)
    requires WellFormed(m, r) && HoldsAt(buf, at, r)
    requires if at + |r| >= n then rest == [] else WalkFrom(m, buf, n, at + |r|) == Some(rest)
    ensures WalkFrom(m, buf, n, at) == Some([r] + rest)
  {
    DeclaredInPlace(m, buf, at, r);
    assert [r] + [] == [r];
  }

  lemma ConcatPositive(m: Monitor, rs: seq<Record>)
    requires rs != [] && AllWellFormed(m, rs)
    ensures |Concat(rs)| >= Header(m)
  {
    assert WellFormed(m, rs[0]);
  }

  lemma {:induction false} WalkFromRecovers(m: Monitor, rs: seq<Record>, buf: seq<Byte>, at: nat, n: nat)
    requires rs != [] && AllWellFormed(m, rs) && HoldsAt(buf, at, Concat(rs)) && n == at + |Concat(rs)|
    ensures WalkFrom(m, buf, n, at) == Some(rs)
    decreases rs
  {
    var r, rest := rs[0], rs[1..];
    HoldsParts(buf, at, r, Concat(rest));
    if rest != [] {
      ConcatPositive(m, rest);
      WalkFromRecovers(m, rest, buf, at + |r|, n);
    }
    WalkStep(m, buf, n, at, r, rest);
    assert [r] + rest == rs;
  }

  /** Whatever the buffer held before, the walk finds the records copied into it, in order, and nothing else. */
  lemma WalkRecovers(m: Monitor, rs: seq<Record>, b: seq<Byte>)
    requires AllWellFormed(m, rs)
    ensures Walk(m, Concat(rs) + b, |Concat(rs)|) == Some(rs)
  {
    if rs != [] {
      assert (Concat(rs) + b)[..|Concat(rs)|] == Concat(rs);
      WalkFromRecovers(m, rs, Concat(rs) + b, 0, |Concat(rs)|);
    }
  }

  lemma {:induction false} ConcatAppend(rs: seq<Record>, ss: seq<Record>)
    ensures Concat(rs + ss) == Concat(rs) + Concat(ss)
  {
    if rs == [] {
      assert rs + ss == ss;
    } else {
      assert (rs + ss)[1..] == rs[1..] + ss;
      ConcatAppend(rs[1..], ss);
    }
  }

  // ---- The records that the drivers make ----

  /** A file event: the types, status, information and flags of the operation, the time in eight fields, the process,
      and the length of the path before the path. */
  function FileRecord(major: Byte, minor: Byte, pad: seq<Byte>, status: nat, information: nat, flags: nat,
                      time: seq<Byte>, process: nat, path: seq<Byte>): Record {
    [major, minor] + pad + Le32(status) + Le32(information) + Le32(flags) + time + Le32(process) + Le32(|path|) + path
  }

  /** A registry event: the type, the time, the process, the type and length of the data, the length of the path, then
      the path and the data. */
  function RegistryRecord(kind: nat, time: seq<Byte>, process: nat, dataType: nat, path: seq<Byte>, data: seq<Byte>): Record {
    Le32(kind) + time + Le32(process) + Le32(dataType) + Le32(|data|) + Le32(|path|) + path + data
  }

  lemma LengthAt(r: seq<Byte>, i: nat, n: nat)
    requires i + 4 <= |r| && r[i..i + 4] == Le32(n) && n < 0x1_0000_0000
    ensures U32At(r, i) == n
  {
    Le32Decodes(n);
    U32InSlice(r, i, i + 4, 0);
  }

  /** The records that the drivers make declare their own sizes. */
  lemma FileRecordFormed(major: Byte, minor: Byte, pad: seq<Byte>, status: nat, information: nat, flags: nat,
                         time: seq<Byte>, process: nat, path: seq<Byte>)
    requires |pad| == 2 && |time| == 16 && |path| < 0x1_0000_0000
    ensures var r := FileRecord(major, minor, pad, status, information, flags, time, process, path);
            WellFormed(Files, r) && r[40..] == path
  {
    var r := FileRecord(major, minor, pad, status, information, flags, time, process, path);
    var head := [major, minor] + pad + Le32(status) + Le32(information) + Le32(flags) + time + Le32(process);
    assert |head| == 36 && r == head + Le32(|path|) + path;
    assert r[36..40] == Le32(|path|);
    LengthAt(r, 36, |path|);
  }

  lemma RegistryRecordFormed(kind: nat, time: seq<Byte>, process: nat, dataType: nat, path: seq<Byte>, data: seq<Byte>)
    requires |time| == 16 && |path| < 0x1_0000_0000 && |data| < 0x1_0000_0000
    ensures var r := RegistryRecord(kind, time, process, dataType, path, data);
            WellFormed(Registry, r) && r[36..36 + |path|] == path && r[36 + |path|..] == data
  {
    var r := RegistryRecord(kind, time, process, dataType, path, data);
    var head := Le32(kind) + time + Le32(process) + Le32(dataType);
    assert |head| == 28 && r == head + Le32(|data|) + Le32(|path|) + (path + data);
    assert r[28..32] == Le32(|data|) && r[32..36] == Le32(|path|) && r[36..] == path + data;
    LengthAt(r, 28, |data|);
    LengthAt(r, 32, |path|);
  }
}
