/** The records of a ZIP archive that the server reads and writes: local file headers (section 4.3.7 of PKWARE's
    APPNOTE.TXT), central directory headers (4.3.12) and the end of central directory record (4.3.16). */
module ZipFormat {
  import opened Bytes

  const LOCAL := 0x04034B50
  const CENTRAL := 0x02014B50
  const END := 0x06054B50

  datatype LocalFileEntry = LocalFileEntry(
    offset: nat, gpbf: seq<Byte>, compMethod: seq<Byte>, timestamp: seq<Byte>, crc32: seq<Byte>,
    cfsize: seq<Byte>, ucfsize: seq<Byte>, fnamelen: seq<Byte>, fxtrlen: seq<Byte>, fname: seq<Byte>)

  /** A slice padded with zeros where it runs past the data. */
  function CopyOfRange(data: seq<Byte>, from: nat, to: nat): (s: seq<Byte>)
    requires from <= |data| && from <= to
    ensures |s| == to - from
    ensures to <= |data| ==> s == data[from..to]
  {
    if to <= |data| then data[from..to] else data[from..] + seq(to - |data|, _ => 0)
  }

  function ReadEntry(data: seq<Byte>, at: nat): LocalFileEntry
    requires at + 30 <= |data|
  {
    EntryOf(at, data[at..at + 30], CopyOfRange(data, at + 30, at + 30 + U16At(data, at + 26)))
  }

  /** An entry from the fixed part of its header and its name. */
  function EntryOf(at: nat, h: seq<Byte>, fname: seq<Byte>): LocalFileEntry
    requires |h| == 30
  {
    LocalFileEntry(at, h[6..8], h[8..10], h[10..14], h[14..18], h[18..22], h[22..26], h[26..28], h[28..30], fname)
  }

  /** Where the entry with its header at this offset ends: header, name, extra field, compressed data. */
  function LocalEnd(data: seq<Byte>, at: nat): nat
    requires at + 30 <= |data|
  {
    at + 30 + U16At(data, at + 26) + U16At(data, at + 28) + U32At(data, at + 18)
  }

  /** Where the directory header at this offset ends: header, name, extra field, comment. */
  function CentralEnd(data: seq<Byte>, at: nat): nat
    requires at + 34 <= |data|
  {
    at + 46 + U16At(data, at + 28) + U16At(data, at + 30) + U16At(data, at + 32)
  }

  /** The name read for an entry: the bytes behind the header, and zeros where the file ends before. */
  lemma EntryName(data: seq<Byte>, at: nat, k: nat)
    requires at + 30 <= |data| && k < U16At(data, at + 26)
    ensures |ReadEntry(data, at).fname| == U16At(data, at + 26)
    ensures ReadEntry(data, at).fname[k] == if at + 30 + k < |data| then data[at + 30 + k] else 0
  {
  }

  // ---- Records that the repair writes ----

  predicate WellSized(e: LocalFileEntry) {
    && |e.gpbf| == |e.compMethod| == |e.fnamelen| == |e.fxtrlen| == 2
    && |e.timestamp| == |e.crc32| == |e.cfsize| == |e.ucfsize| == 4
    && |e.fname| == U16At(e.fnamelen, 0)
  }

  /** The fields that a directory header has in common with the local header. */
  function Fields(e: LocalFileEntry): seq<Byte> {
    e.gpbf + e.compMethod + e.timestamp + e.crc32 + e.cfsize + e.ucfsize + e.fnamelen + e.fxtrlen
  }

  /** Version 20 made by and needed, no comment, disk 0, no attributes, and the place of the local header. The
      length of the extra field is copied, but no extra field is written. */
  function CentralRecord(e: LocalFileEntry): seq<Byte> {
    Le32(CENTRAL) + [0x14, 0, 0x14, 0] + Fields(e) + Le16(0) + Le16(0) + Le16(0) + Le32(0) + Le32(e.offset) + e.fname
  }

  const COMMENT: seq<Byte> := [0x52, 0x65, 0x70, 0x61, 0x69, 0x72, 0x65, 0x64]

  function EndRecord(entries: nat, size: nat, offset: nat): seq<Byte> {
    Le32(END) + Le16(0) + Le16(0) + Le16(entries) + Le16(entries) + Le32(size) + Le32(offset) + Le16(8) + COMMENT
  }

  lemma FieldsOf(at: nat, h: seq<Byte>, fname: seq<Byte>)
    requires |h| == 30
    ensures Fields(EntryOf(at, h, fname)) == h[6..30]
  {
  }

  /** The fields of a local header in one slice. */
  lemma FieldsInPlace(data: seq<Byte>, at: nat)
    requires at + 30 <= |data|
    ensures Fields(ReadEntry(data, at)) == data[at + 6..at + 30] && WellSized(ReadEntry(data, at))
  {
    var h := data[at..at + 30];
    FieldsOf(at, h, ReadEntry(data, at).fname);
    assert h[6..30] == data[at + 6..at + 30];
    U16InSlice(h, 26, 28, 0);
    U16InSlice(data, at, at + 30, 26);
  }

  /** Where the parts of a directory header lie. */
  lemma CentralParts(e: LocalFileEntry)
    requires WellSized(e)
    ensures var r := CentralRecord(e);
            && |r| == 46 + |e.fname| && |Fields(e)| == 24
            && r[0..4] == Le32(CENTRAL) && r[8..32] == Fields(e) && r[32..34] == Le16(0)
            && r[4..8] == [20, 0, 20, 0] && r[32..42] == [0, 0, 0, 0, 0, 0, 0, 0, 0, 0]
            && r[42..46] == Le32(e.offset) && r[46..] == e.fname
            && Fields(e)[20..22] == e.fnamelen && Fields(e)[22..24] == e.fxtrlen
  {
  }

  /** The signatures are the letters PK and two numbers. */
  lemma Signatures()
    ensures Le32(LOCAL) == ['P' as int, 'K' as int, 3, 4]
    ensures Le32(CENTRAL) == ['P' as int, 'K' as int, 1, 2]
    ensures Le32(END) == ['P' as int, 'K' as int, 5, 6]
    ensures COMMENT == ['R' as int, 'e' as int, 'p' as int, 'a' as int, 'i' as int, 'r' as int, 'e' as int, 'd' as int]
  {
  }

  /** A directory header made by and for version 2.0, without comment, on the first disk, with no attributes. */
  predicate FirstDisk(data: seq<Byte>, at: nat) {
    at + 42 <= |data| && data[at + 4..at + 8] == [20, 0, 20, 0] && data[at + 32..at + 42] == [0, 0, 0, 0, 0, 0, 0, 0, 0, 0]
  }

  /** What a directory header says when it is read back: made by and for version 2.0, no comment, the first disk, no
      attributes. */
  lemma CentralReads(e: LocalFileEntry)
    requires WellSized(e)
    ensures var r := CentralRecord(e);
            && |r| == 46 + |e.fname|
            && U32At(r, 0) == CENTRAL && r[8..32] == Fields(e) && r[46..] == e.fname
            && FirstDisk(r, 0)
            && U16At(r, 28) == |e.fname| && U16At(r, 30) == U16At(e.fxtrlen, 0) && U16At(r, 32) == 0
            && U32At(r, 42) == e.offset % 0x1_0000_0000
  {
    CentralParts(e);
    CentralNumbers(e, CentralRecord(e));
  }

  lemma CentralNumbers(e: LocalFileEntry, r: seq<Byte>)
    requires WellSized(e) && |r| >= 46 && |Fields(e)| == 24
    requires r[0..4] == Le32(CENTRAL) && r[8..32] == Fields(e) && r[32..34] == Le16(0) && r[42..46] == Le32(e.offset)
    requires Fields(e)[20..22] == e.fnamelen && Fields(e)[22..24] == e.fxtrlen
    ensures U32At(r, 0) == CENTRAL && U32At(r, 42) == e.offset % 0x1_0000_0000
    ensures U16At(r, 28) == |e.fname| && U16At(r, 30) == U16At(e.fxtrlen, 0) && U16At(r, 32) == 0
  {
    Le32Decodes(CENTRAL);
    Le32Decodes(e.offset);
    U32InSlice(r, 0, 4, 0);
    U32InSlice(r, 42, 46, 0);
    U16InSlice(r, 32, 34, 0);
    U16InSlice(r, 8, 32, 20);
    U16InSlice(r, 8, 32, 22);
    U16InSlice(Fields(e), 20, 22, 0);
    U16InSlice(Fields(e), 22, 24, 0);
  }

  lemma EndParts(entries: nat, size: nat, offset: nat, r: seq<Byte>)
    requires r == EndRecord(entries, size, offset)
    ensures |r| == 30 && r[0..4] == Le32(END) && r[4..8] == [0, 0, 0, 0] && r[8..10] == Le16(entries) && r[10..12] == Le16(entries)
    ensures r[12..16] == Le32(size) && r[16..20] == Le32(offset) && r[20..22] == [8, 0] && r[22..] == COMMENT
  {
  }

  /** What the end record says when it is read back: the first disk of one, the entries twice, the directory, a comment. */
  lemma EndReads(entries: nat, size: nat, offset: nat)
    ensures var r := EndRecord(entries, size, offset);
            && |r| == 30 && U32At(r, 0) == END && r[4..8] == [0, 0, 0, 0]
            && U16At(r, 8) == U16At(r, 10) == entries % 0x1_0000
            && U32At(r, 12) == size % 0x1_0000_0000 && U32At(r, 16) == offset % 0x1_0000_0000
            && U16At(r, 20) == 8 && r[22..] == COMMENT
  {
    var r := EndRecord(entries, size, offset);
    EndParts(entries, size, offset, r);
    EndNumbers(entries, size, offset, r);
  }

  lemma EndNumbers(entries: nat, size: nat, offset: nat, r: seq<Byte>)
    requires |r| == 30 && r[0..4] == Le32(END) && r[8..10] == Le16(entries) && r[10..12] == Le16(entries)
    requires r[12..16] == Le32(size) && r[16..20] == Le32(offset) && r[20..22] == [8, 0]
    ensures U32At(r, 0) == END && U16At(r, 8) == U16At(r, 10) == entries % 0x1_0000
    ensures U32At(r, 12) == size % 0x1_0000_0000 && U32At(r, 16) == offset % 0x1_0000_0000 && U16At(r, 20) == 8
  {
    Le32Decodes(END);
    Le16Decodes(entries);
    Le32Decodes(size);
    Le32Decodes(offset);
    U32InSlice(r, 0, 4, 0);
    U16InSlice(r, 8, 10, 0);
    U16InSlice(r, 10, 12, 0);
    U32InSlice(r, 12, 16, 0);
    U32InSlice(r, 16, 20, 0);
    U16InSlice(r, 20, 22, 0);
  }

  // ---- Entries and headers as an archiver writes them ----

  /** A local header, with what lies between signature and sizes given as it is, and its entry. */
  function LocalRecord(head: seq<Byte>, ucfsize: nat, name: seq<Byte>, extra: seq<Byte>, content: seq<Byte>): seq<Byte> {
    Le32(LOCAL) + head + Le32(|content|) + Le32(ucfsize) + Le16(|name|) + Le16(|extra|) + name + extra + content
  }

  /** Written entries are found where they were written: the next one begins right after the content, and the entry
      read has the name. */
  lemma LocalRecordEnds(data: seq<Byte>, at: nat, r: seq<Byte>, head: seq<Byte>, ucfsize: nat, name: seq<Byte>,
                        extra: seq<Byte>, content: seq<Byte>)
    requires |head| == 14 && |name| < 0x1_0000 && |extra| < 0x1_0000 && |content| < 0x1_0000_0000
    requires r == LocalRecord(head, ucfsize, name, extra, content) && at + |r| <= |data| && data[at..at + |r|] == r
    ensures at + 30 <= |data| && U32At(data, at) == LOCAL && LocalEnd(data, at) == at + |r|
    ensures ReadEntry(data, at).fname == data[at + 30..at + 30 + |name|] == name && ReadEntry(data, at).offset == at
    ensures data[at + |r| - |content|..at + |r|] == content
  {
    LocalRecordParts(head, ucfsize, name, extra, content, r);
    LocalNumbers(data, at, r, |name|, |extra|, |content|);
    SliceOf(data, at, r, 30, 30 + |name|);
    SliceOf(data, at, r, |r| - |content|, |r|);
  }

  lemma SliceOf(data: seq<Byte>, at: nat, r: seq<Byte>, i: nat, j: nat)
    requires at + |r| <= |data| && data[at..at + |r|] == r && i <= j <= |r|
    ensures data[at + i..at + j] == r[i..j]
  {
    forall k | 0 <= k < j - i
      ensures data[at + i..at + j][k] == r[i..j][k]
    {
      assert data[at..at + |r|][i + k] == data[at + i + k];
    }
  }

  lemma LocalRecordParts(head: seq<Byte>, ucfsize: nat, name: seq<Byte>, extra: seq<Byte>, content: seq<Byte>, r: seq<Byte>)
    requires |head| == 14 && r == LocalRecord(head, ucfsize, name, extra, content)
    ensures |r| == 30 + |name| + |extra| + |content|
    ensures r[0..4] == Le32(LOCAL) && r[18..22] == Le32(|content|) && r[26..28] == Le16(|name|) && r[28..30] == Le16(|extra|)
    ensures r[30..30 + |name|] == name && r[|r| - |content|..] == content
  {
  }

  lemma Reads16(data: seq<Byte>, at: nat, r: seq<Byte>, i: nat, n: nat)
    requires at + |r| <= |data| && data[at..at + |r|] == r && i + 2 <= |r| && r[i..i + 2] == Le16(n) && n < 0x1_0000
    ensures U16At(data, at + i) == n
  {
    Le16Decodes(n);
    U16InSlice(data, at, at + |r|, i);
    U16InSlice(r, i, i + 2, 0);
  }

  lemma Reads32(data: seq<Byte>, at: nat, r: seq<Byte>, i: nat, n: nat)
    requires at + |r| <= |data| && data[at..at + |r|] == r && i + 4 <= |r| && r[i..i + 4] == Le32(n) && n < 0x1_0000_0000
    ensures U32At(data, at + i) == n
  {
    Le32Decodes(n);
    U32InSlice(data, at, at + |r|, i);
    U32InSlice(r, i, i + 4, 0);
  }

  lemma LocalNumbers(data: seq<Byte>, at: nat, r: seq<Byte>, name: nat, extra: nat, content: nat)
    requires at + |r| <= |data| && data[at..at + |r|] == r && |r| >= 30
    requires r[0..4] == Le32(LOCAL) && r[18..22] == Le32(content) && r[26..28] == Le16(name) && r[28..30] == Le16(extra)
    requires name < 0x1_0000 && extra < 0x1_0000 && content < 0x1_0000_0000
    ensures U32At(data, at) == LOCAL && U32At(data, at + 18) == content
    ensures U16At(data, at + 26) == name && U16At(data, at + 28) == extra
  {
    Reads32(data, at, r, 0, LOCAL);
    Reads32(data, at, r, 18, content);
    Reads16(data, at, r, 26, name);
    Reads16(data, at, r, 28, extra);
  }

  /** A directory header with an extra field and a comment, and with everything else given as it is. */
  function DirectoryRecord(head: seq<Byte>, name: seq<Byte>, extra: seq<Byte>, comment: seq<Byte>, tail: seq<Byte>): seq<Byte> {
    Le32(CENTRAL) + head + Le16(|name|) + Le16(|extra|) + Le16(|comment|) + tail + name + extra + comment
  }

  lemma DirectoryRecordParts(head: seq<Byte>, name: seq<Byte>, extra: seq<Byte>, comment: seq<Byte>, tail: seq<Byte>, r: seq<Byte>)
    requires |head| == 24 && |tail| == 12 && r == DirectoryRecord(head, name, extra, comment, tail)
    ensures |r| == 46 + |name| + |extra| + |comment|
    ensures r[0..4] == Le32(CENTRAL) && r[28..30] == Le16(|name|) && r[30..32] == Le16(|extra|) && r[32..34] == Le16(|comment|)
  {
  }

  /** The next directory header begins right after the comment. */
  lemma DirectoryRecordEnds(data: seq<Byte>, at: nat, r: seq<Byte>, head: seq<Byte>, name: seq<Byte>, extra: seq<Byte>,
                            comment: seq<Byte>, tail: seq<Byte>)
    requires |head| == 24 && |tail| == 12 && |name| < 0x1_0000 && |extra| < 0x1_0000 && |comment| < 0x1_0000
    requires r == DirectoryRecord(head, name, extra, comment, tail) && at + |r| <= |data| && data[at..at + |r|] == r
    ensures at + 34 <= |data| && U32At(data, at) == CENTRAL && CentralEnd(data, at) == at + |r|
  {
    DirectoryRecordParts(head, name, extra, comment, tail, r);
    Reads32(data, at, r, 0, CENTRAL);
    Reads16(data, at, r, 28, |name|);
    Reads16(data, at, r, 30, |extra|);
    Reads16(data, at, r, 32, |comment|);
  }
}
