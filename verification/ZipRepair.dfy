/** The walk over a possibly truncated archive, and the archive that its repair writes. */
module ZipRepair {
  import opened Prelude
  import opened Bytes
  import opened ZipFormat

  /** The range of the program's integers, and how large a file may be for the walk's own additions to stay in it. */
  const INT := 0x8000_0000
  const LARGEST := INT - 64

  /** How a walk ends: at an end record, without one, at a read past the data, or out of integer range. */
  datatype Ending = Complete | Stopped | Crashed | Overflowed

  /** `visited` lists the offsets that the walk stood at; `kept` the entries it holds; `repairedAt` where it called the repair. */
  datatype Outcome = Outcome(visited: seq<nat>, kept: seq<LocalFileEntry>, repairedAt: Option<nat>, ending: Ending)

  function Id(data: seq<Byte>, at: nat): nat {
    if at + 4 <= |data| then U32At(data, at) else 0
  }

  function After(passed: seq<nat>, rest: Outcome): Outcome {
    rest.(visited := passed + rest.visited)
  }

  function Process(data: seq<Byte>, at: nat, kept: seq<LocalFileEntry>): Outcome
    requires |data| <= LARGEST
    decreases |data| - at
  {
    if Id(data, at) == LOCAL then
      if at + 30 > |data| then Outcome([at], kept, Some(at), Crashed)
      else if U32At(data, at + 18) >= INT || LocalEnd(data, at) >= INT then Outcome([at], kept, None, Overflowed)
      else if LocalEnd(data, at) < |data| then After([at], Process(data, LocalEnd(data, at), kept + [ReadEntry(data, at)]))
      else Outcome([at], kept, Some(at), Stopped)
    else if Id(data, at) == CENTRAL then
      if at + 34 > |data| then Outcome([at], kept, if at + 30 > |data| then Some(at) else None, Crashed)
      else if CentralEnd(data, at) >= INT then Outcome([at], kept, None, Overflowed)
      else if CentralEnd(data, at) < |data| then After([at], Process(data, CentralEnd(data, at), kept))
      else Outcome([at], kept, None, Stopped)
    else if Id(data, at) == END then
      if at + 22 > |data| then Outcome([at], kept, if at + 20 > |data| then Some(at) else None, Crashed)
      else Outcome([at], kept, None, Complete)
    else Outcome([at], kept, None, Stopped)
  }

  function Directory(es: seq<LocalFileEntry>): seq<Byte> {
    if es == [] then [] else CentralRecord(es[0]) + Directory(es[1..])
  }

  /** The size that the repair adds up for the directory. */
  function DirectorySize(es: seq<LocalFileEntry>): nat {
    if es == [] then 0 else |es[0].fname| + 46 + DirectorySize(es[1..])
  }

  /** The file that the repair writes. */
  function Repaired(data: seq<Byte>, at: nat, es: seq<LocalFileEntry>): seq<Byte>
    requires at <= |data|
  {
    data[..at] + Directory(es) + EndRecord(|es|, DirectorySize(es), at)
  }

  // ---- The part before the repair ----

  /** From one offset to another the data is made of whole entries, the listed ones, and whole directory headers. */
  predicate Tiled(data: seq<Byte>, at: nat, to: nat, es: seq<LocalFileEntry>)
    decreases |data| - at
  {
    at <= to <= |data| &&
    if at == to then es == []
    else if Id(data, at) == LOCAL then
      && at + 30 <= |data| && LocalEnd(data, at) <= to && U32At(data, at + 18) < INT
      && es != [] && es[0] == ReadEntry(data, at) && Tiled(data, LocalEnd(data, at), to, es[1..])
    else
      Id(data, at) == CENTRAL && at + 34 <= |data| && CentralEnd(data, at) <= to && Tiled(data, CentralEnd(data, at), to, es)
  }

  /** Where the tiles begin. */
  function Starts(data: seq<Byte>, at: nat, to: nat, es: seq<LocalFileEntry>): seq<nat>
    requires Tiled(data, at, to, es)
    decreases |data| - at
  {
    if at == to then []
    else if Id(data, at) == LOCAL then [at] + Starts(data, LocalEnd(data, at), to, es[1..])
    else [at] + Starts(data, CentralEnd(data, at), to, es)
  }

  /** When the repair is called, the kept entries tile what it preserves. */
  lemma {:induction false} ProcessTiles(data: seq<Byte>, at: nat, kept: seq<LocalFileEntry>)
    requires |data| <= LARGEST && at <= |data|
    ensures var o := Process(data, at, kept);
            && kept <= o.kept
            && (o.repairedAt.Some? ==> Tiled(data, at, o.repairedAt.value, o.kept[|kept|..]))
    decreases |data| - at
  {
    if Id(data, at) == LOCAL && at + 30 <= |data| && LocalEnd(data, at) < |data| {
      var e := ReadEntry(data, at);
      ProcessTiles(data, LocalEnd(data, at), kept + [e]);
      var o := Process(data, LocalEnd(data, at), kept + [e]);
      assert o.kept[..|kept| + 1] == kept + [e];
      assert o.kept[|kept|] == e;
      assert o.kept[|kept|..][1..] == o.kept[|kept + [e]|..];
    } else if Id(data, at) == CENTRAL && at + 34 <= |data| && CentralEnd(data, at) < |data| {
      ProcessTiles(data, CentralEnd(data, at), kept);
    }
  }

  /** A local header stands at an offset, and its entry ends within the data. */
  predicate WholeEntry(data: seq<Byte>, at: nat) {
    Id(data, at) == LOCAL && at + 30 <= |data| && LocalEnd(data, at) <= |data|
  }

  /** Where the repair is called a whole entry stands if and only if it ends with the data: such a last entry is dropped,
      although it is not truncated, and no other whole entry is. */
  lemma {:induction false} LastEntryLost(data: seq<Byte>, at: nat, kept: seq<LocalFileEntry>)
    requires |data| <= LARGEST && Process(data, at, kept).repairedAt.Some?
    ensures var last := Process(data, at, kept).repairedAt.value;
            && WholeEntry(data, last) <==> Id(data, last) == LOCAL && last + 30 <= |data| && LocalEnd(data, last) == |data|
    decreases |data| - at
  {
    if Id(data, at) == LOCAL && at + 30 <= |data| && LocalEnd(data, at) < |data| {
      LastEntryLost(data, LocalEnd(data, at), kept + [ReadEntry(data, at)]);
    } else if Id(data, at) == CENTRAL && at + 34 <= |data| && CentralEnd(data, at) < |data| {
      LastEntryLost(data, CentralEnd(data, at), kept);
    }
  }

  /** A file that is one whole entry, with an empty name and no content: nothing of it survives its repair. */
  lemma OneEntryLost(data: seq<Byte>)
    requires data == Le32(LOCAL) + seq(26, i => 0)
    ensures WholeEntry(data, 0) && Process(data, 0, []).repairedAt == Some(0) && Process(data, 0, []).kept == []
    ensures Repaired(data, 0, []) == EndRecord(0, 0, 0)
  {
    Le32Decodes(LOCAL);
    assert U32At(data, 0) == U32At(Le32(LOCAL), 0);
    assert U32At(data, 18) == 0 && U16At(data, 26) == 0 && U16At(data, 28) == 0;
    assert Repaired(data, 0, []) == [] + [] + EndRecord(0, 0, 0);
  }

  /** A tiling depends on nothing after it. */
  lemma {:induction false} TiledPrefix(data: seq<Byte>, data': seq<Byte>, at: nat, to: nat, es: seq<LocalFileEntry>)
    requires Tiled(data, at, to, es) && to <= |data'| && data[..to] == data'[..to]
    ensures Tiled(data', at, to, es) && Starts(data', at, to, es) == Starts(data, at, to, es)
    decreases |data| - at
  {
    if at < to {
      HeaderSame(data, data', at, to);
      if Id(data, at) == LOCAL {
        TiledPrefix(data, data', LocalEnd(data, at), to, es[1..]);
      } else {
        TiledPrefix(data, data', CentralEnd(data, at), to, es);
      }
    }
  }

  lemma SliceSame(data: seq<Byte>, data': seq<Byte>, to: nat, a: nat, b: nat)
    requires to <= |data| && to <= |data'| && data[..to] == data'[..to] && a <= b <= to
    ensures data[a..b] == data'[a..b]
  {
    assert data[a..b] == data[..to][a..b] && data'[a..b] == data'[..to][a..b];
  }

  lemma NumbersSame(data: seq<Byte>, data': seq<Byte>, to: nat, at: nat)
    requires to <= |data| && to <= |data'| && data[..to] == data'[..to]
    ensures at + 2 <= to ==> U16At(data', at) == U16At(data, at)
    ensures at + 4 <= to ==> U32At(data', at) == U32At(data, at)
  {
    assert forall i :: 0 <= i < to ==> data[i] == data[..to][i] == data'[i];
  }

  lemma EntrySame(data: seq<Byte>, data': seq<Byte>, at: nat, to: nat)
    requires to <= |data| && to <= |data'| && data[..to] == data'[..to] && at + 30 <= to && LocalEnd(data, at) <= to
    ensures ReadEntry(data', at) == ReadEntry(data, at)
  {
    NumbersSame(data, data', to, at + 26);
    SliceSame(data, data', to, at, at + 30);
    SliceSame(data, data', to, at + 30, at + 30 + U16At(data, at + 26));
  }

  lemma HeaderSame(data: seq<Byte>, data': seq<Byte>, at: nat, to: nat)
    requires to <= |data| && to <= |data'| && data[..to] == data'[..to]
    ensures at + 4 <= to ==> Id(data', at) == Id(data, at)
    ensures at + 30 <= to ==> LocalEnd(data', at) == LocalEnd(data, at) && U32At(data', at + 18) == U32At(data, at + 18)
    ensures at + 30 <= to && LocalEnd(data, at) <= to ==> ReadEntry(data', at) == ReadEntry(data, at)
    ensures at + 34 <= to ==> CentralEnd(data', at) == CentralEnd(data, at)
  {
    NumbersSame(data, data', to, at);
    NumbersSame(data, data', to, at + 18);
    NumbersSame(data, data', to, at + 26);
    NumbersSame(data, data', to, at + 28);
    NumbersSame(data, data', to, at + 30);
    NumbersSame(data, data', to, at + 32);
    if at + 30 <= to && LocalEnd(data, at) <= to {
      EntrySame(data, data', at, to);
    }
  }

  lemma AfterTwice(a: seq<nat>, b: seq<nat>, o: Outcome)
    ensures After(a, After(b, o)) == After(a + b, o) && After([], o) == o
  {
    assert a + (b + o.visited) == a + b + o.visited && [] + o.visited == o.visited;
  }

  lemma TileStep(data: seq<Byte>, at: nat, to: nat, es: seq<LocalFileEntry>, kept: seq<LocalFileEntry>)
    requires |data| <= LARGEST && Tiled(data, at, to, es) && at < to < |data|
    ensures Process(data, at, kept) ==
              if Id(data, at) == LOCAL then After([at], Process(data, LocalEnd(data, at), kept + [es[0]]))
              else After([at], Process(data, CentralEnd(data, at), kept))
  {
  }

  /** The walk passes over a tiling that is followed by more data. */
  lemma {:induction false} ProcessPasses(data: seq<Byte>, at: nat, to: nat, es: seq<LocalFileEntry>, kept: seq<LocalFileEntry>)
    requires |data| <= LARGEST && Tiled(data, at, to, es) && to < |data|
    ensures Process(data, at, kept) == After(Starts(data, at, to, es), Process(data, to, kept + es))
    decreases |data| - at
  {
    var o := Process(data, to, kept + es);
    if at == to {
      assert kept + es == kept;
      AfterTwice([], [], o);
    } else {
      TileStep(data, at, to, es, kept);
      if Id(data, at) == LOCAL {
        ProcessPasses(data, LocalEnd(data, at), to, es[1..], kept + [es[0]]);
        assert kept + [es[0]] + es[1..] == kept + es;
        AfterTwice([at], Starts(data, LocalEnd(data, at), to, es[1..]), o);
      } else {
        ProcessPasses(data, CentralEnd(data, at), to, es, kept);
        AfterTwice([at], Starts(data, CentralEnd(data, at), to, es), o);
      }
    }
  }

  // ---- The part that the repair adds ----

  predicate AllWellSized(es: seq<LocalFileEntry>) {
    es == [] || (WellSized(es[0]) && AllWellSized(es[1..]))
  }

  /** No entry declares an extra field. */
  predicate NoExtra(es: seq<LocalFileEntry>) {
    es == [] || (|es[0].fxtrlen| == 2 && U16At(es[0].fxtrlen, 0) == 0 && NoExtra(es[1..]))
  }

  /** Where the directory headers for es and then the end record are written, from offset at on. */
  function Written(at: nat, es: seq<LocalFileEntry>): seq<nat>
    decreases |es|
  {
    if es == [] then [at] else [at] + Written(at + 46 + |es[0].fname|, es[1..])
  }

  predicate HoldsFrom(data: seq<Byte>, at: nat, rest: seq<Byte>) {
    at <= |data| && data[at..] == rest
  }

  lemma HeldFrom(data: seq<Byte>, at: nat, a: seq<Byte>, b: seq<Byte>)
    requires HoldsFrom(data, at, a + b)
    ensures HoldsFrom(data, at + |a|, b) && data[at..at + |a|] == a
  {
    assert data[at..][..|a|] == a && data[at..][|a|..] == b;
    assert data[at..at + |a|] == data[at..][..|a|] && data[at + |a|..] == data[at..][|a|..];
  }

  lemma CentralInPlace(data: seq<Byte>, at: nat, e: LocalFileEntry)
    requires WellSized(e) && at + 46 + |e.fname| <= |data|
    requires data[at..at + 46 + |e.fname|] == CentralRecord(e)
    ensures Id(data, at) == CENTRAL && CentralEnd(data, at) == at + 46 + |e.fname| + U16At(e.fxtrlen, 0)
    ensures U32At(data, at + 42) == e.offset % 0x1_0000_0000
    ensures data[at + 8..at + 32] == Fields(e) && data[at + 46..at + 46 + |e.fname|] == e.fname
    ensures FirstDisk(data, at)
  {
    CentralReads(e);
    var end := at + 46 + |e.fname|;
    U32InSlice(data, at, end, 0);
    U32InSlice(data, at, end, 42);
    U16InSlice(data, at, end, 28);
    U16InSlice(data, at, end, 30);
    U16InSlice(data, at, end, 32);
    SubSlice(data, at, end, 8, 32);
    SubSlice(data, at, end, 4, 8);
    SubSlice(data, at, end, 32, 42);
    SubSlice(data, at, end, 46, end - at);
  }

  lemma SubSlice(data: seq<Byte>, a: nat, b: nat, i: nat, j: nat)
    requires a <= b <= |data| && i <= j <= b - a
    ensures data[a..b][i..j] == data[a + i..a + j]
  {
    forall k | 0 <= k < j - i
      ensures data[a..b][i..j][k] == data[a + i..a + j][k]
    {
      assert data[a..b][i..j][k] == data[a..b][i + k];
    }
  }

  lemma EndInPlace(data: seq<Byte>, at: nat, entries: nat, size: nat, offset: nat)
    requires HoldsFrom(data, at, EndRecord(entries, size, offset))
    ensures |data| == at + 30 && Id(data, at) == END
    ensures U16At(data, at + 8) == U16At(data, at + 10) == entries % 0x1_0000
    ensures U32At(data, at + 12) == size % 0x1_0000_0000 && U32At(data, at + 16) == offset % 0x1_0000_0000
    ensures data[at + 4..at + 8] == [0, 0, 0, 0] && U16At(data, at + 20) == 8 && data[at + 22..] == COMMENT
  {
    EndReads(entries, size, offset);
    assert |data| == at + |data[at..]| == at + 30;
    assert data[at..|data|] == data[at..];
    U32InSlice(data, at, |data|, 0);
    U16InSlice(data, at, |data|, 8);
    U16InSlice(data, at, |data|, 10);
    U32InSlice(data, at, |data|, 12);
    U32InSlice(data, at, |data|, 16);
    U16InSlice(data, at, |data|, 20);
    SubSlice(data, at, |data|, 4, 8);
    SubSlice(data, at, |data|, 22, 30);
    assert data[at + 22..] == data[at + 22..at + 30];
  }

  lemma {:induction false} DirectorySizeIs(es: seq<LocalFileEntry>)
    requires AllWellSized(es)
    ensures DirectorySize(es) == |Directory(es)|
  {
    if es != [] {
      CentralReads(es[0]);
      DirectorySizeIs(es[1..]);
    }
  }

  lemma VisitsFirst(data: seq<Byte>, at: nat, kept: seq<LocalFileEntry>)
    requires |data| <= LARGEST
    ensures |Process(data, at, kept).visited| > 0 && Process(data, at, kept).visited[0] == at
  {
  }

  lemma {:induction false} WrittenFirst(at: nat, es: seq<LocalFileEntry>)
    ensures |Written(at, es)| == |es| + 1 && Written(at, es)[0] == at
    decreases |es|
  {
    if es != [] {
      WrittenFirst(at + 46 + |es[0].fname|, es[1..]);
    }
  }

  /** The walk goes on to the next directory header when this one declares what was written. */
  lemma CentralStep(data: seq<Byte>, at: nat, next: nat, kept: seq<LocalFileEntry>)
    requires |data| <= LARGEST && at + 46 <= next < |data| && Id(data, at) == CENTRAL && CentralEnd(data, at) == next
    ensures Process(data, at, kept) == After([at], Process(data, next, kept))
  {
  }

  lemma Lengths(e: LocalFileEntry, entries: nat, size: nat, offset: nat)
    ensures WellSized(e) ==> |CentralRecord(e)| == 46 + |e.fname|
    ensures |EndRecord(entries, size, offset)| == 30
  {
  }

  lemma DirectoryHead(es: seq<LocalFileEntry>, end: seq<Byte>)
    requires es != []
    ensures Directory(es) + end == CentralRecord(es[0]) + (Directory(es[1..]) + end)
  {
  }

  lemma HeadInPlace(data: seq<Byte>, at: nat, es: seq<LocalFileEntry>, end: seq<Byte>)
    requires es != [] && AllWellSized(es) && HoldsFrom(data, at, Directory(es) + end)
    ensures var next := at + 46 + |es[0].fname|;
            && HoldsFrom(data, next, Directory(es[1..]) + end) && |data| >= next + |end|
            && Id(data, at) == CENTRAL && CentralEnd(data, at) == next + U16At(es[0].fxtrlen, 0)
  {
    DirectoryHead(es, end);
    HeldFrom(data, at, CentralRecord(es[0]), Directory(es[1..]) + end);
    Lengths(es[0], 0, 0, 0);
    CentralInPlace(data, at, es[0]);
  }

  lemma EndOfWalk(data: seq<Byte>, at: nat, kept: seq<LocalFileEntry>, entries: nat, size: nat, offset: nat)
    requires |data| <= LARGEST && HoldsFrom(data, at, Directory([]) + EndRecord(entries, size, offset))
    ensures Process(data, at, kept) == Outcome([at], kept, None, Complete)
  {
    assert Directory([]) + EndRecord(entries, size, offset) == EndRecord(entries, size, offset);
    EndInPlace(data, at, entries, size, offset);
  }

  /** The walk stood at just these offsets if and only if no extra field was declared, and then it ended well. */
  predicate WalksWell(o: Outcome, written: seq<nat>, kept: seq<LocalFileEntry>, noExtra: bool) {
    (o.visited == written <==> noExtra) && (noExtra ==> o.ending == Complete && o.repairedAt == None && o.kept == kept)
  }

  lemma WellAfter(o: Outcome, at: nat, es: seq<LocalFileEntry>, kept: seq<LocalFileEntry>, written: seq<nat>)
    requires es != [] && |es[0].fxtrlen| == 2 && U16At(es[0].fxtrlen, 0) == 0
    requires WalksWell(o, written, kept, NoExtra(es[1..]))
    ensures WalksWell(After([at], o), [at] + written, kept, NoExtra(es))
  {
    assert ([at] + o.visited)[1..] == o.visited && ([at] + written)[1..] == written;
  }

  /** A directory header that declares more than was written takes the walk past what follows. */
  lemma Overshoots(data: seq<Byte>, at: nat, kept: seq<LocalFileEntry>, next: nat, written: seq<nat>)
    requires |data| <= LARGEST && at + 46 <= |data| && Id(data, at) == CENTRAL && CentralEnd(data, at) != next
    requires written != [] && written[0] == next
    ensures Process(data, at, kept).visited != [at] + written
  {
    if CentralEnd(data, at) < |data| {
      VisitsFirst(data, CentralEnd(data, at), kept);
      assert Process(data, at, kept).visited[1] == CentralEnd(data, at);
      assert ([at] + written)[1] == next;
    } else {
      assert |Process(data, at, kept).visited| == 1;
    }
  }

  lemma AstrayAfter(data: seq<Byte>, at: nat, es: seq<LocalFileEntry>, kept: seq<LocalFileEntry>, o: Outcome, written: seq<nat>)
    requires |data| <= LARGEST && es != [] && |es[0].fxtrlen| == 2 && U16At(es[0].fxtrlen, 0) != 0
    requires at + 46 <= |data| && Id(data, at) == CENTRAL && CentralEnd(data, at) != at + 46 + |es[0].fname|
    requires o == Process(data, at, kept) && written == Written(at, es)
    ensures WalksWell(o, written, kept, NoExtra(es))
  {
    var next := at + 46 + |es[0].fname|;
    WrittenFirst(next, es[1..]);
    Overshoots(data, at, kept, next, Written(next, es[1..]));
  }

  lemma StraightAfter(data: seq<Byte>, at: nat, next: nat, es: seq<LocalFileEntry>, kept: seq<LocalFileEntry>,
                      o: Outcome, written: seq<nat>, o': Outcome, written': seq<nat>)
    requires |data| <= LARGEST && es != [] && |es[0].fxtrlen| == 2 && U16At(es[0].fxtrlen, 0) == 0
    requires next == at + 46 + |es[0].fname| < |data| && Id(data, at) == CENTRAL && CentralEnd(data, at) == next
    requires o == Process(data, at, kept) && written == Written(at, es)
    requires o' == Process(data, next, kept) && written' == Written(next, es[1..])
    requires WalksWell(o', written', kept, NoExtra(es[1..]))
    ensures WalksWell(o, written, kept, NoExtra(es))
  {
    CentralStep(data, at, next, kept);
    WellAfter(o', at, es, kept, written');
  }

  /** Walking the directory that the repair wrote: every header and the end record are stood at if and only if no
      entry declares an extra field; and then the walk ends well. */
  lemma {:induction false} DirectoryWalk(data: seq<Byte>, at: nat, es: seq<LocalFileEntry>, kept: seq<LocalFileEntry>,
                                         entries: nat, size: nat, offset: nat, o: Outcome, written: seq<nat>)
    requires |data| <= LARGEST && AllWellSized(es)
    requires HoldsFrom(data, at, Directory(es) + EndRecord(entries, size, offset))
    requires o == Process(data, at, kept) && written == Written(at, es)
    ensures WalksWell(o, written, kept, NoExtra(es))
    decreases |es|
  {
    if es == [] {
      EndOfWalk(data, at, kept, entries, size, offset);
    } else {
      var next := at + 46 + |es[0].fname|;
      HeadInPlace(data, at, es, EndRecord(entries, size, offset));
      Lengths(es[0], entries, size, offset);
      if U16At(es[0].fxtrlen, 0) == 0 {
        var rest, written' := Process(data, next, kept), Written(next, es[1..]);
        DirectoryWalk(data, next, es[1..], kept, entries, size, offset, rest, written');
        StraightAfter(data, at, next, es, kept, o, written, rest, written');
      } else {
        AstrayAfter(data, at, es, kept, o, written);
      }
    }
  }

  // ---- The repair ----

  lemma {:induction false} TiledWellSized(data: seq<Byte>, at: nat, to: nat, es: seq<LocalFileEntry>)
    requires Tiled(data, at, to, es)
    ensures AllWellSized(es)
    decreases |data| - at
  {
    if at < to {
      if Id(data, at) == LOCAL {
        FieldsInPlace(data, at);
        TiledWellSized(data, LocalEnd(data, at), to, es[1..]);
      } else {
        TiledWellSized(data, CentralEnd(data, at), to, es);
      }
    }
  }

  /** Whenever a walk calls the repair, the kept entries tile the preserved part, and a whole entry is dropped only where
      it ends with the data; the walk over the repaired file stands
      where the first walk did, at every directory header that was written and at the end record if and only if
      no kept entry declares an extra field; and then it completes without another repair. */
  lemma RepairTheorem(data: seq<Byte>)
    requires |data| <= LARGEST && Process(data, 0, []).repairedAt.Some?
    requires var o := Process(data, 0, []); o.repairedAt.value <= |data| ==> |Repaired(data, o.repairedAt.value, o.kept)| <= LARGEST
    ensures var o := Process(data, 0, []);
            var at := o.repairedAt.value;
            && Tiled(data, 0, at, o.kept)
            && (WholeEntry(data, at) <==> Id(data, at) == LOCAL && at + 30 <= |data| && LocalEnd(data, at) == |data|)
            && var again := Process(Repaired(data, at, o.kept), 0, []);
            && (again.visited == Starts(data, 0, at, o.kept) + Written(at, o.kept) <==> NoExtra(o.kept))
            && (NoExtra(o.kept) ==> again.ending == Complete && again.repairedAt == None && again.kept == o.kept)
  {
    ProcessTiles(data, 0, []);
    LastEntryLost(data, 0, []);
    var o := Process(data, 0, []);
    var at, es := o.repairedAt.value, o.kept;
    assert es[0..] == es;
    RepairWalk(data, at, es);
  }

  lemma RepairWalk(data: seq<Byte>, at: nat, es: seq<LocalFileEntry>)
    requires Tiled(data, 0, at, es) && |Repaired(data, at, es)| <= LARGEST
    ensures var again := Process(Repaired(data, at, es), 0, []);
            && (again.visited == Starts(data, 0, at, es) + Written(at, es) <==> NoExtra(es))
            && (NoExtra(es) ==> again.ending == Complete && again.repairedAt == None && again.kept == es)
  {
    var out := Repaired(data, at, es);
    RepairedParts(data, at, es);
    TiledPrefix(data, out, 0, at, es);
    TiledWellSized(data, 0, at, es);
    var starts, written := Starts(data, 0, at, es), Written(at, es);
    var o := Process(out, at, es);
    assert Process(out, 0, []) == After(starts, o) by {
      ProcessPasses(out, 0, at, es, []);
      assert [] + es == es;
    }
    DirectoryWalk(out, at, es, es, |es|, DirectorySize(es), at, o, written);
    assert (starts + o.visited)[|starts|..] == o.visited && (starts + written)[|starts|..] == written;
  }

  lemma RepairedParts(data: seq<Byte>, at: nat, es: seq<LocalFileEntry>)
    requires at <= |data|
    ensures var out := Repaired(data, at, es);
            && at < |out| && out[..at] == data[..at]
            && HoldsFrom(out, at, Directory(es) + EndRecord(|es|, DirectorySize(es), at))
  {
    var rest := Directory(es) + EndRecord(|es|, DirectorySize(es), at);
    assert Repaired(data, at, es) == data[..at] + rest;
    Lengths(LocalFileEntry(0, [], [], [], [], [], [], [], [], []), |es|, DirectorySize(es), at);
  }

  /** Each kept entry is a whole local entry of the preserved part. */
  lemma {:induction false} KeptInPlace(data: seq<Byte>, at: nat, to: nat, es: seq<LocalFileEntry>, k: nat)
    requires Tiled(data, at, to, es) && k < |es|
    ensures var off := es[k].offset;
            && at <= off && Id(data, off) == LOCAL && off + 30 <= to && LocalEnd(data, off) <= to
            && es[k] == ReadEntry(data, off)
    decreases |data| - at
  {
    if Id(data, at) == LOCAL {
      if k > 0 {
        KeptInPlace(data, LocalEnd(data, at), to, es[1..], k - 1);
      }
    } else {
      KeptInPlace(data, CentralEnd(data, at), to, es, k);
    }
  }

  /** Where the k-th of the directory headers is written, or the end record when they are all written. */
  function Place(at: nat, es: seq<LocalFileEntry>, k: nat): nat
    requires k <= |es|
    decreases k
  {
    if k == 0 then at else Place(at + 46 + |es[0].fname|, es[1..], k - 1)
  }

  lemma {:induction false} WrittenAtPlace(at: nat, es: seq<LocalFileEntry>, k: nat)
    requires k <= |es|
    ensures |Written(at, es)| == |es| + 1 && Written(at, es)[k] == Place(at, es, k)
    decreases k
  {
    WrittenFirst(at, es);
    if k > 0 {
      WrittenAtPlace(at + 46 + |es[0].fname|, es[1..], k - 1);
    }
  }

  lemma {:induction false} RestHeld(data: seq<Byte>, at: nat, es: seq<LocalFileEntry>, end: seq<Byte>)
    requires es != [] && AllWellSized(es) && HoldsFrom(data, at, Directory(es) + end)
    ensures var next := at + 46 + |es[0].fname|;
            HoldsFrom(data, next, Directory(es[1..]) + end) && data[at..next] == CentralRecord(es[0])
  {
    DirectoryHead(es, end);
    HeldFrom(data, at, CentralRecord(es[0]), Directory(es[1..]) + end);
    Lengths(es[0], 0, 0, 0);
  }

  lemma {:induction false} HeadersInPlace(data: seq<Byte>, at: nat, es: seq<LocalFileEntry>, end: seq<Byte>, k: nat, p: nat)
    requires AllWellSized(es) && HoldsFrom(data, at, Directory(es) + end) && k < |es| && p == Place(at, es, k)
    ensures WellSized(es[k]) && p + 46 + |es[k].fname| <= |data|
    ensures data[p..p + 46 + |es[k].fname|] == CentralRecord(es[k])
    decreases k
  {
    RestHeld(data, at, es, end);
    if k > 0 {
      HeadersInPlace(data, at + 46 + |es[0].fname|, es[1..], end, k - 1, p);
    }
  }

  /** The directory header at p leads to the local header of entry e and repeats its fields and its name. */
  predicate LeadsTo(out: seq<Byte>, p: nat, e: LocalFileEntry) {
    var off, name := e.offset, |e.fname|;
    && p + 46 + name <= |out| && Id(out, p) == CENTRAL && U32At(out, p + 42) == off
    && off + 30 + name <= |out| && Id(out, off) == LOCAL
    && FirstDisk(out, p)
    && out[p + 8..p + 32] == out[off + 6..off + 30] && out[p + 46..p + 46 + name] == out[off + 30..off + 30 + name]
  }

  lemma LocalParts(out: seq<Byte>, to: nat, e: LocalFileEntry)
    requires to <= |out| && e.offset + 30 <= to && LocalEnd(out, e.offset) <= to && e == ReadEntry(out, e.offset)
    ensures e.offset + 30 + |e.fname| <= to && out[e.offset + 6..e.offset + 30] == Fields(e)
    ensures out[e.offset + 30..e.offset + 30 + |e.fname|] == e.fname
  {
    FieldsInPlace(out, e.offset);
  }

  lemma HeaderLeads(out: seq<Byte>, p: nat, e: LocalFileEntry)
    requires |out| <= LARGEST && WellSized(e) && p + 46 + |e.fname| <= |out|
    requires out[p..p + 46 + |e.fname|] == CentralRecord(e)
    requires Id(out, e.offset) == LOCAL && e.offset + 30 + |e.fname| <= |out|
    requires out[e.offset + 6..e.offset + 30] == Fields(e) && out[e.offset + 30..e.offset + 30 + |e.fname|] == e.fname
    ensures LeadsTo(out, p, e)
  {
    SmallNumber(e.offset);
    CentralInPlace(out, p, e);
  }

  lemma EntryInPlace(out: seq<Byte>, at: nat, es: seq<LocalFileEntry>, end: seq<Byte>, k: nat, p: nat)
    requires |out| <= LARGEST && Tiled(out, 0, at, es) && k < |es| && p == Place(at, es, k)
    requires AllWellSized(es) && HoldsFrom(out, at, Directory(es) + end)
    ensures LeadsTo(out, p, es[k])
  {
    var e := es[k];
    HeadersInPlace(out, at, es, end, k, p);
    KeptInPlace(out, 0, at, es, k);
    assert out[e.offset + 6..e.offset + 30] == Fields(e) && out[e.offset + 30..e.offset + 30 + |e.fname|] == e.fname by {
      LocalParts(out, at, e);
    }
    HeaderLeads(out, p, e);
  }

  /** In the repaired file every directory header leads to the local header of its entry. */
  lemma EntryTheorem(data: seq<Byte>, at: nat, es: seq<LocalFileEntry>, k: nat)
    requires Tiled(data, 0, at, es) && k < |es| && |Repaired(data, at, es)| <= LARGEST
    ensures LeadsTo(Repaired(data, at, es), Place(at, es, k), es[k])
  {
    var out, p, end := Repaired(data, at, es), Place(at, es, k), EndRecord(|es|, DirectorySize(es), at);
    RepairedParts(data, at, es);
    TiledPrefix(data, out, 0, at, es);
    TiledWellSized(data, 0, at, es);
    EntryInPlace(out, at, es, end, k, p);
  }

  lemma {:induction false} EndHeld(data: seq<Byte>, at: nat, es: seq<LocalFileEntry>, end: seq<Byte>, p: nat)
    requires AllWellSized(es) && HoldsFrom(data, at, Directory(es) + end) && p == Place(at, es, |es|)
    ensures p == at + |Directory(es)| && HoldsFrom(data, p, end)
    decreases |es|
  {
    if es == [] {
      assert Directory(es) + end == end;
    } else {
      RestHeld(data, at, es, end);
      Lengths(es[0], 0, 0, 0);
      EndHeld(data, at + 46 + |es[0].fname|, es[1..], end, p);
    }
  }

  /** The end record at p is the last thing written; it records the bytes of the directory from `at` on, where the
      directory begins, and the number of entries in 16 bits. */
  predicate Concludes(out: seq<Byte>, at: nat, es: seq<LocalFileEntry>, p: nat) {
    && p == at + |Directory(es)| && |out| == p + 30 && Id(out, p) == END
    && U32At(out, p + 12) == p - at && U32At(out, p + 16) == at
    && U16At(out, p + 8) == U16At(out, p + 10) == |es| % 0x1_0000
    && out[p + 4..p + 8] == [0, 0, 0, 0] && U16At(out, p + 20) == 8 && out[p + 22..] == COMMENT
  }

  lemma EndConcludes(out: seq<Byte>, at: nat, es: seq<LocalFileEntry>, n: nat, size: nat, p: nat)
    requires p == at + |Directory(es)| && size == |Directory(es)| && n == |es| && p < 0x1_0000_0000
    requires HoldsFrom(out, p, EndRecord(n, size, at))
    ensures Concludes(out, at, es, p)
  {
    SmallNumber(size);
    SmallNumber(at);
    EndInPlace(out, p, n, size, at);
  }

  lemma SmallNumber(n: nat)
    ensures n < 0x1_0000_0000 ==> n % 0x1_0000_0000 == n
  {
  }

  lemma EndTheorem(data: seq<Byte>, at: nat, es: seq<LocalFileEntry>)
    requires Tiled(data, 0, at, es) && |Repaired(data, at, es)| <= LARGEST
    ensures Concludes(Repaired(data, at, es), at, es, Place(at, es, |es|))
  {
    RepairedParts(data, at, es);
    TiledWellSized(data, 0, at, es);
    DirectorySizeIs(es);
    EndHeld(Repaired(data, at, es), at, es, EndRecord(|es|, DirectorySize(es), at), Place(at, es, |es|));
    EndConcludes(Repaired(data, at, es), at, es, |es|, DirectorySize(es), Place(at, es, |es|));
  }

  // ---- Undamaged archives ----

  /** What an archiver writes before the end record. */
  datatype Part =
    | LocalPart(head: seq<Byte>, ucfsize: nat, name: seq<Byte>, extra: seq<Byte>, content: seq<Byte>)
    | DirectoryPart(head: seq<Byte>, name: seq<Byte>, extra: seq<Byte>, comment: seq<Byte>, tail: seq<Byte>)

  predicate GoodPart(p: Part) {
    match p
    case LocalPart(head, _, name, extra, content) => |head| == 14 && |name| < 0x1_0000 && |extra| < 0x1_0000 && |content| < INT
    case DirectoryPart(head, name, extra, comment, tail) =>
      |head| == 24 && |tail| == 12 && |name| < 0x1_0000 && |extra| < 0x1_0000 && |comment| < 0x1_0000
  }

  function PartBytes(p: Part): seq<Byte> {
    match p
    case LocalPart(head, ucfsize, name, extra, content) => LocalRecord(head, ucfsize, name, extra, content)
    case DirectoryPart(head, name, extra, comment, tail) => DirectoryRecord(head, name, extra, comment, tail)
  }

  function ArchiveBytes(ps: seq<Part>): seq<Byte> {
    if ps == [] then [] else PartBytes(ps[0]) + ArchiveBytes(ps[1..])
  }

  function Names(ps: seq<Part>): seq<seq<Byte>> {
    if ps == [] then [] else (if ps[0].LocalPart? then [ps[0].name] else []) + Names(ps[1..])
  }

  function EntryNames(es: seq<LocalFileEntry>): seq<seq<Byte>> {
    seq(|es|, i requires 0 <= i < |es| => es[i].fname)
  }

  lemma PartWalked(data: seq<Byte>, at: nat, p: Part, kept: seq<LocalFileEntry>)
    requires |data| <= LARGEST && GoodPart(p) && at + |PartBytes(p)| < |data| && data[at..at + |PartBytes(p)|] == PartBytes(p)
    ensures var next := at + |PartBytes(p)|;
            if p.DirectoryPart? then Process(data, at, kept) == After([at], Process(data, next, kept))
            else at + 30 <= |data| && ReadEntry(data, at).fname == p.name
                 && Process(data, at, kept) == After([at], Process(data, next, kept + [ReadEntry(data, at)]))
  {
    match p
    case LocalPart(head, ucfsize, name, extra, content) =>
      LocalRecordEnds(data, at, PartBytes(p), head, ucfsize, name, extra, content);
      LocalNumbersOf(data, at, p);
    case DirectoryPart(head, name, extra, comment, tail) =>
      DirectoryRecordEnds(data, at, PartBytes(p), head, name, extra, comment, tail);
  }

  lemma LocalNumbersOf(data: seq<Byte>, at: nat, p: Part)
    requires p.LocalPart? && GoodPart(p) && at + |PartBytes(p)| <= |data| && data[at..at + |PartBytes(p)|] == PartBytes(p)
    ensures at + 30 <= |data| && U32At(data, at + 18) == |p.content|
  {
    LocalRecordParts(p.head, p.ucfsize, p.name, p.extra, p.content, PartBytes(p));
    LocalNumbers(data, at, PartBytes(p), |p.name|, |p.extra|, |p.content|);
  }

  lemma NamesNext(es: seq<LocalFileEntry>, e: LocalFileEntry)
    ensures EntryNames(es + [e]) == EntryNames(es) + [e.fname]
  {
  }

  /** Where the parts begin, without what follows. */
  function Before(at: nat, ps: seq<Part>): seq<nat>
    decreases |ps|
  {
    if ps == [] then [] else [at] + Before(at + |PartBytes(ps[0])|, ps[1..])
  }

  predicate GoodParts(ps: seq<Part>) {
    ps == [] || (GoodPart(ps[0]) && GoodParts(ps[1..]))
  }

  lemma NamesJoin(before: seq<seq<Byte>>, ps: seq<Part>)
    requires ps != []
    ensures before + Names(ps) == before + (if ps[0].LocalPart? then [ps[0].name] else []) + Names(ps[1..])
  {
  }

  lemma ArchiveHead(ps: seq<Part>, tail: seq<Byte>)
    requires ps != []
    ensures ArchiveBytes(ps) + tail == PartBytes(ps[0]) + (ArchiveBytes(ps[1..]) + tail)
    ensures |ArchiveBytes(ps)| == |PartBytes(ps[0])| + |ArchiveBytes(ps[1..])|
  {
    var first, rest := PartBytes(ps[0]), ArchiveBytes(ps[1..]);
    assert ArchiveBytes(ps) == first + rest;
    Associates(first, rest, tail);
  }

  lemma Associates(a: seq<Byte>, b: seq<Byte>, c: seq<Byte>)
    ensures a + b + c == a + (b + c)
  {
  }

  lemma FirstPart(data: seq<Byte>, at: nat, p: Part, rest: seq<Byte>, kept: seq<LocalFileEntry>, o: Outcome)
    returns (held: seq<LocalFileEntry>, end: Outcome)
    requires |data| <= LARGEST && GoodPart(p) && rest != [] && HoldsFrom(data, at, PartBytes(p) + rest)
    requires o == Process(data, at, kept)
    ensures HoldsFrom(data, at + |PartBytes(p)|, rest)
    ensures o == After([at], end) && end == Process(data, at + |PartBytes(p)|, held)
    ensures EntryNames(held) == EntryNames(kept) + if p.LocalPart? then [p.name] else []
  {
    HeldFrom(data, at, PartBytes(p), rest);
    PartWalked(data, at, p, kept);
    held := if p.LocalPart? then kept + [ReadEntry(data, at)] else kept;
    end := Process(data, at + |PartBytes(p)|, held);
    if p.LocalPart? {
      NamesNext(kept, ReadEntry(data, at));
    } else {
      assert EntryNames(kept) + [] == EntryNames(kept);
    }
  }

  lemma AfterFirst(at: nat, ps: seq<Part>, next: nat, rest: seq<nat>, o: Outcome, mid: Outcome, end: Outcome)
    requires ps != [] && next == at + |PartBytes(ps[0])| && rest == Before(next, ps[1..])
    requires o == After([at], mid) && mid == After(rest, end)
    ensures o == After(Before(at, ps), end)
  {
    AfterTwice([at], rest, end);
  }

  lemma NoParts(data: seq<Byte>, at: nat, tail: seq<Byte>, kept: seq<LocalFileEntry>, o: Outcome)
    requires HoldsFrom(data, at, ArchiveBytes([]) + tail)
    ensures HoldsFrom(data, at, tail) && EntryNames(kept) == EntryNames(kept) + Names([]) && o == After(Before(at, []), o)
  {
    assert ArchiveBytes([]) + tail == tail;
    AfterTwice([], [], o);
  }

  /** Whole parts that are followed by anything are walked one by one, and the entries among them are kept. */
  lemma {:induction false} PartsWalked(data: seq<Byte>, at: nat, ps: seq<Part>, tail: seq<Byte>, kept: seq<LocalFileEntry>,
                                       to: nat, o: Outcome)
    returns (held: seq<LocalFileEntry>, end: Outcome)
    requires |data| <= LARGEST && GoodParts(ps) && tail != [] && HoldsFrom(data, at, ArchiveBytes(ps) + tail)
    requires to == at + |ArchiveBytes(ps)| && o == Process(data, at, kept)
    ensures HoldsFrom(data, to, tail) && EntryNames(held) == EntryNames(kept) + Names(ps)
    ensures o == After(Before(at, ps), end) && end == Process(data, to, held)
    decreases |ps|
  {
    if ps == [] {
      held, end := kept, o;
      NoParts(data, at, tail, kept, o);
    } else {
      var next := at + |PartBytes(ps[0])|;
      ArchiveHead(ps, tail);
      var first, mid := FirstPart(data, at, ps[0], ArchiveBytes(ps[1..]) + tail, kept, o);
      held, end := PartsWalked(data, next, ps[1..], tail, first, to, mid);
      NamesJoin(EntryNames(kept), ps);
      AfterFirst(at, ps, next, Before(next, ps[1..]), o, mid, end);
    }
  }

  /** What is left of an archive after a cut: whole parts, and the first bytes of another part or of the end record. */
  predicate CutAfter(data: seq<Byte>, ps: seq<Part>, record: seq<Byte>, n: nat) {
    && GoodParts(ps) && 0 < n <= |record| && data == ArchiveBytes(ps) + record[..n]
    && |ArchiveBytes(ps)| + |record| <= LARGEST
  }

  lemma CutWalked(data: seq<Byte>, ps: seq<Part>, record: seq<Byte>, n: nat) returns (held: seq<LocalFileEntry>)
    requires CutAfter(data, ps, record, n)
    ensures var at := |ArchiveBytes(ps)|;
            && HoldsFrom(data, at, record[..n]) && EntryNames(held) == Names(ps)
            && Process(data, 0, []) == After(Before(0, ps), Process(data, at, held))
  {
    assert data[0..] == data;
    var end;
    held, end := PartsWalked(data, 0, ps, record[..n], [], |ArchiveBytes(ps)|, Process(data, 0, []));
    assert EntryNames([]) + Names(ps) == Names(ps);
  }

  /** Less than a signature, or another one, stops the walk without a repair. */
  lemma Unrecognised(data: seq<Byte>, at: nat, kept: seq<LocalFileEntry>)
    requires |data| <= LARGEST
    requires at + 4 > |data| || (U32At(data, at) != LOCAL && U32At(data, at) != CENTRAL && U32At(data, at) != END)
    ensures Process(data, at, kept) == Outcome([at], kept, None, Stopped)
  {
  }

  lemma LocalCut(data: seq<Byte>, at: nat, p: Part, n: nat, kept: seq<LocalFileEntry>)
    requires p.LocalPart? && GoodPart(p) && 4 <= n <= |PartBytes(p)| && at + |PartBytes(p)| <= LARGEST
    requires HoldsFrom(data, at, PartBytes(p)[..n])
    ensures |data| <= LARGEST && Process(data, at, kept) == Outcome([at], kept, Some(at), if n < 30 then Crashed else Stopped)
  {
    var r := PartBytes(p)[..n];
    LocalRecordParts(p.head, p.ucfsize, p.name, p.extra, p.content, PartBytes(p));
    assert |data| == at + n && data[at..at + n] == r && r[0..4] == Le32(LOCAL);
    Reads32(data, at, r, 0, LOCAL);
    if n >= 30 {
      assert r[18..22] == Le32(|p.content|) && r[26..28] == Le16(|p.name|) && r[28..30] == Le16(|p.extra|);
      LocalNumbers(data, at, r, |p.name|, |p.extra|, |p.content|);
    }
  }

  lemma DirectoryCut(data: seq<Byte>, at: nat, p: Part, n: nat, kept: seq<LocalFileEntry>)
    requires p.DirectoryPart? && GoodPart(p) && 4 <= n <= |PartBytes(p)| && at + |PartBytes(p)| <= LARGEST
    requires HoldsFrom(data, at, PartBytes(p)[..n])
    ensures |data| <= LARGEST
    ensures Process(data, at, kept) ==
            Outcome([at], kept, if n < 30 then Some(at) else None, if n < 34 then Crashed else Stopped)
  {
    var r := PartBytes(p)[..n];
    DirectoryRecordParts(p.head, p.name, p.extra, p.comment, p.tail, PartBytes(p));
    assert |data| == at + n && data[at..at + n] == r && r[0..4] == Le32(CENTRAL);
    Reads32(data, at, r, 0, CENTRAL);
    if n >= 34 {
      assert r[28..30] == Le16(|p.name|) && r[30..32] == Le16(|p.extra|) && r[32..34] == Le16(|p.comment|);
      Reads16(data, at, r, 28, |p.name|);
      Reads16(data, at, r, 30, |p.extra|);
      Reads16(data, at, r, 32, |p.comment|);
    }
  }

  lemma EndCut(data: seq<Byte>, at: nat, entries: nat, size: nat, offset: nat, n: nat, kept: seq<LocalFileEntry>)
    requires 4 <= n <= 30 && at + 30 <= LARGEST && |EndRecord(entries, size, offset)| == 30
    requires HoldsFrom(data, at, EndRecord(entries, size, offset)[..n])
    ensures |data| <= LARGEST
    ensures Process(data, at, kept) ==
            Outcome([at], kept, if n < 20 then Some(at) else None, if n < 22 then Crashed else Complete)
  {
    var r := EndRecord(entries, size, offset)[..n];
    EndParts(entries, size, offset, EndRecord(entries, size, offset));
    assert |data| == at + n && data[at..at + n] == r && r[0..4] == Le32(END);
    Reads32(data, at, r, 0, END);
  }

  /** An archive cut inside a part, or right behind it: every whole entry before is kept, and the repair is called
      there if the part is an entry of which a signature is left, or a directory header of which less than its first 30
      bytes are left. */
  lemma TruncationTheorem(data: seq<Byte>, ps: seq<Part>, p: Part, n: nat)
    requires GoodPart(p) && CutAfter(data, ps, PartBytes(p), n)
    ensures |data| <= LARGEST
    ensures var o, at := Process(data, 0, []), |ArchiveBytes(ps)|;
            && o.visited == Before(0, ps) + [at] && EntryNames(o.kept) == Names(ps)
            && o.repairedAt == (if n >= 4 && (p.LocalPart? || n < 30) then Some(at) else None)
  {
    var at := |ArchiveBytes(ps)|;
    var held := CutWalked(data, ps, PartBytes(p), n);
    if n < 4 {
      Unrecognised(data, at, held);
    } else if p.LocalPart? {
      LocalCut(data, at, p, n, held);
    } else {
      DirectoryCut(data, at, p, n, held);
    }
  }

  /** An archive cut inside its end record is repaired if between 4 and 19 bytes of it are left, and complete from 22 on:
      an undamaged one is left alone. */
  lemma ArchiveTheorem(data: seq<Byte>, ps: seq<Part>, entries: nat, size: nat, offset: nat, n: nat)
    requires CutAfter(data, ps, EndRecord(entries, size, offset), n)
    ensures |data| <= LARGEST
    ensures var o, at := Process(data, 0, []), |ArchiveBytes(ps)|;
            && o.visited == Before(0, ps) + [at] && EntryNames(o.kept) == Names(ps)
            && o.repairedAt == (if 4 <= n < 20 then Some(at) else None) && (o.ending == Complete <==> n >= 22)
  {
    var at := |ArchiveBytes(ps)|;
    EndParts(entries, size, offset, EndRecord(entries, size, offset));
    var held := CutWalked(data, ps, EndRecord(entries, size, offset), n);
    if n < 4 {
      Unrecognised(data, at, held);
    } else {
      EndCut(data, at, entries, size, offset, n, held);
    }
  }
}
