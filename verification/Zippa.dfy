/** The repair as the server runs it: a recursive walk that keeps its entries in a list, and loops that write the file. */
module Zippa {
  import opened Prelude
  import opened Bytes
  import opened ZipFormat
  import opened ZipRepair

  function Scale(k: nat): nat {
    if k == 0 then 1 else 0x100 * Scale(k - 1)
  }

  /** The first k bytes from an offset as a number, least significant byte first. */
  function ValueOf(data: seq<Byte>, at: nat, k: nat): nat
    requires at + k <= |data|
  {
    if k == 0 then 0 else ValueOf(data, at, k - 1) + (data[at + k - 1] as int) * Scale(k - 1)
  }

  lemma ValueOfNumbers(data: seq<Byte>, at: nat)
    ensures at + 2 <= |data| ==> ValueOf(data, at, 2) == U16At(data, at)
    ensures at + 4 <= |data| ==> ValueOf(data, at, 4) == U32At(data, at)
  {
    assert Scale(1) == 0x100 && Scale(2) == 0x1_0000 && Scale(3) == 0x100_0000;
    if at + 2 <= |data| {
      assert ValueOf(data, at, 1) == data[at] as int;
    }
    if at + 4 <= |data| {
      assert ValueOf(data, at, 3) == ValueOf(data, at, 2) + (data[at + 2] as int) * 0x1_0000;
    }
  }

  /** The integer of 32 bits that a number wraps around to. */
  function Wrap32(n: int): (w: int)
    ensures -INT <= w < INT && (-INT <= n < INT ==> w == n)
  {
    (n + INT) % 0x1_0000_0000 - INT
  }

  /** Wrapping the summands changes nothing. */
  lemma WrapSum(m: int, n: int)
    ensures Wrap32(Wrap32(m) + Wrap32(n)) == Wrap32(m + n)
  {
    var i, j := (m + INT) / 0x1_0000_0000, (n + INT) / 0x1_0000_0000;
    assert m + INT == i * 0x1_0000_0000 + (m + INT) % 0x1_0000_0000;
    assert n + INT == j * 0x1_0000_0000 + (n + INT) % 0x1_0000_0000;
    WrapTurns(Wrap32(m) + Wrap32(n), i + j);
  }

  lemma WrapTurns(n: int, turns: int)
    ensures Wrap32(n + turns * 0x1_0000_0000) == Wrap32(n)
  {
    var a, b := n + INT, 0x1_0000_0000;
    assert a + turns * b == (a / b + turns) * b + a % b;
  }

  /** The loop adds up shifted bytes in integers of 32 bits, so four bytes from 2^31 on read as a negative number. */
  method ReadBytes(data: array<Byte>, offset: nat, count: nat) returns (sum: int)
    requires offset + count <= data.Length && count <= 4
    ensures sum == Wrap32(ValueOf(data[..], offset, count))
  {
    sum := 0;
    var scale := 1;
    for i := 0 to count
      invariant sum == Wrap32(ValueOf(data[..], offset, i)) && scale == Scale(i)
    {
      WrapSum(ValueOf(data[..], offset, i), (data[offset + i] as int) * scale);
      sum := Wrap32(sum + Wrap32((data[offset + i] as int) * scale));
      scale := 0x100 * scale;
    }
  }

  lemma Numbers(data: seq<Byte>, at: nat)
    ensures at + 2 <= |data| ==> 0 <= U16At(data, at) < 0x1_0000
    ensures at + 4 <= |data| ==> 0 <= U32At(data, at) < 0x1_0000_0000
    ensures at + 4 <= |data| ==>
              Wrap32(U32At(data, at)) == if U32At(data, at) < INT then U32At(data, at) else U32At(data, at) - 0x1_0000_0000
  {
  }

  method ReadNumber(data: array<Byte>, offset: nat, count: nat) returns (n: int)
    requires count == 2 || count == 4
    requires offset + count <= data.Length
    ensures count == 2 ==> n == U16At(data[..], offset)
    ensures count == 4 ==> n == if U32At(data[..], offset) < INT then U32At(data[..], offset)
                                else U32At(data[..], offset) - 0x1_0000_0000
  {
    n := ReadBytes(data, offset, count);
    ValueOfNumbers(data[..], offset);
    Numbers(data[..], offset);
  }

  /** Reading a local header field by field. */
  method ReadLocalFileEntry(data: array<Byte>, start: nat) returns (e: LocalFileEntry)
    requires start + 30 <= data.Length
    ensures e == ReadEntry(data[..], start)
  {
    ghost var h := data[..][start..start + 30];
    var offset := start + 6;
    var gpbf := data[offset..offset + 2];
    offset := offset + 2;
    var compMethod := data[offset..offset + 2];
    offset := offset + 2;
    var timestamp := data[offset..offset + 4];
    offset := offset + 4;
    var crc32 := data[offset..offset + 4];
    offset := offset + 4;
    var cfsize := data[offset..offset + 4];
    offset := offset + 4;
    var ucfsize := data[offset..offset + 4];
    offset := offset + 4;
    var fnamelen := data[offset..offset + 2];
    offset := offset + 2;
    var fxtrlen := data[offset..offset + 2];
    offset := offset + 2;
    var length := ReadNumber(data, start + 26, 2);
    var fname := CopyOfRange(data[..], offset, offset + length);
    e := LocalFileEntry(start, gpbf, compMethod, timestamp, crc32, cfsize, ucfsize, fnamelen, fxtrlen, fname);
    assert gpbf == h[6..8] && compMethod == h[8..10] && timestamp == h[10..14] && crc32 == h[14..18];
    assert cfsize == h[18..22] && ucfsize == h[22..26] && fnamelen == h[26..28] && fxtrlen == h[28..30];
  }

  lemma {:induction false} DirectoryNext(es: seq<LocalFileEntry>, e: LocalFileEntry)
    ensures Directory(es + [e]) == Directory(es) + CentralRecord(e)
    ensures DirectorySize(es + [e]) == DirectorySize(es) + |e.fname| + 46
  {
    if es == [] {
      assert es + [e] == [e] && [e][1..] == [];
    } else {
      assert (es + [e])[1..] == es[1..] + [e];
      DirectoryNext(es[1..], e);
    }
  }

  class Zippa {
    var count: nat
    var lastOffset: nat
    var lfes: seq<LocalFileEntry>
    var written: Option<seq<Byte>>

    constructor ()
      ensures count == 0 && lastOffset == 0 && lfes == [] && written == None
    {
      count, lastOffset, lfes, written := 0, 0, [], None;
    }

    method RestoreDirectory() returns (directory: seq<Byte>, cdelen: nat)
      ensures directory == Directory(lfes) && cdelen == DirectorySize(lfes)
    {
      directory, cdelen := [], 0;
      for i := 0 to |lfes|
        invariant directory == Directory(lfes[..i]) && cdelen == DirectorySize(lfes[..i])
      {
        DirectoryNext(lfes[..i], lfes[i]);
        assert lfes[..i + 1] == lfes[..i] + [lfes[i]];
        directory := directory + CentralRecord(lfes[i]);
        cdelen := cdelen + |lfes[i].fname| + 46;
      }
      assert lfes[..|lfes|] == lfes;
    }

    method RepairZipFile(data: array<Byte>, offset: nat)
      requires offset <= data.Length
      modifies `written
      ensures written == Some(Repaired(data[..], offset, lfes))
    {
      var directory, cdelen := RestoreDirectory();
      written := Some(data[..][..offset] + directory + EndRecord(|lfes|, cdelen, offset));
    }

    /** The whole state after a walk from an offset. */
    ghost predicate Walked(data: seq<Byte>, o: Outcome, before: Option<seq<Byte>>)
      reads this
    {
      && o.visited != [] && lastOffset == o.visited[|o.visited| - 1] && lfes == o.kept
      && (o.repairedAt.Some? ==> o.repairedAt.value <= |data|)
      && written == if o.repairedAt.Some? then Some(Repaired(data, o.repairedAt.value, o.kept)) else before
    }

    method ProcessZipFile(data: array<Byte>, start: nat) returns (ending: Ending)
      requires data.Length <= LARGEST && start <= data.Length
      modifies this
      ensures var o := Process(data[..], start, old(lfes));
              ending == o.ending && count == old(count) + |o.visited| && Walked(data[..], o, old(written))
      decreases data.Length - start, 1
    {
      count := count + 1;
      lastOffset := start;
      ending := Stopped;
      if start + 4 <= data.Length {
        var id := ReadNumber(data, start, 4);
        if id == LOCAL {
          ending := ProcessLocal(data, start, Process(data[..], start, lfes));
        } else if id == CENTRAL {
          ending := ProcessCentral(data, start, Process(data[..], start, lfes));
        } else if id == END {
          if start + 20 > data.Length {
            RepairZipFile(data, start);
          }
          ending := if start + 22 > data.Length then Crashed else Complete;
        }
      }
    }

    /** The sizes a local header declares, and where its entry then ends. */
    method ReadSizes(data: array<Byte>, start: nat) returns (cfsize: int, offset: int)
      requires start + 30 <= data.Length
      ensures cfsize < 0 <==> U32At(data[..], start + 18) >= INT
      ensures cfsize >= 0 ==> offset == LocalEnd(data[..], start)
    {
      cfsize := ReadNumber(data, start + 18, 4);
      var fnamelen := ReadNumber(data, start + 26, 2);
      var fxtrlen := ReadNumber(data, start + 28, 2);
      offset := start + 30 + fnamelen + fxtrlen + cfsize;
      Numbers(data[..], start + 18);
    }

    method ProcessLocal(data: array<Byte>, start: nat, ghost o: Outcome) returns (ending: Ending)
      requires data.Length <= LARGEST && Id(data[..], start) == LOCAL && lastOffset == start
      requires start < data.Length && o == Process(data[..], start, lfes)
      modifies this
      ensures ending == o.ending && count == old(count) + |o.visited| - 1 && Walked(data[..], o, old(written))
      decreases data.Length - start, 0
    {
      if start + 30 > data.Length {
        RepairZipFile(data, start);
        return Crashed;
      }
      var cfsize, offset := ReadSizes(data, start);
      if cfsize < 0 || offset >= INT {
        return Overflowed;
      }
      var lfe := ReadLocalFileEntry(data, start);
      lfes := lfes + [lfe];
      if offset < data.Length {
        ghost var rest := Process(data[..], offset, lfes);
        assert o == After([start], rest);
        ending := ProcessZipFile(data, offset);
        assert o.visited == [start] + rest.visited;
      } else {
        assert o == Outcome([start], old(lfes), Some(start), Stopped);
        lfes := lfes[..|lfes| - 1];
        assert lfes == old(lfes);
        RepairZipFile(data, start);
        ending := Stopped;
      }
    }

    method ProcessCentral(data: array<Byte>, start: nat, ghost o: Outcome) returns (ending: Ending)
      requires data.Length <= LARGEST && Id(data[..], start) == CENTRAL && lastOffset == start
      requires start < data.Length && o == Process(data[..], start, lfes)
      modifies this
      ensures ending == o.ending && count == old(count) + |o.visited| - 1 && Walked(data[..], o, old(written))
      decreases data.Length - start, 0
    {
      if start + 30 > data.Length {
        RepairZipFile(data, start);
      }
      if start + 34 > data.Length {
        return Crashed;
      }
      var fnamelen := ReadNumber(data, start + 28, 2);
      var fxtrlen := ReadNumber(data, start + 30, 2);
      var fcmtlen := ReadNumber(data, start + 32, 2);
      var offset := start + 46 + fnamelen + fxtrlen + fcmtlen;
      if offset >= INT {
        return Overflowed;
      }
      assert offset == CentralEnd(data[..], start);
      if offset < data.Length {
        ghost var rest := Process(data[..], offset, lfes);
        assert o == After([start], rest);
        ending := ProcessZipFile(data, offset);
        assert o.visited == [start] + rest.visited;
      } else {
        assert o == Outcome([start], lfes, None, Stopped);
        ending := Stopped;
      }
    }
  }
}
