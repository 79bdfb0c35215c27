/** A file sent in Base64 parts by the client and put together again by the server. */
module FileTransfer {
  import opened Prelude
  import opened Base64

  const CHUNK := 8192

  /** Sizes and offsets from here on are not numbers to the server. */
  const INT := 0x8000_0000

  datatype Part = Part(start: nat, end: nat, data: seq<Octet>)

  /** The bytes that a read of one chunk at this offset gets. */
  function Chunk(file: seq<Octet>, offset: nat): seq<Octet>
    requires offset <= |file|
  {
    if offset + CHUNK <= |file| then file[offset..offset + CHUNK] else file[offset..]
  }

  function PartAt(file: seq<Octet>, offset: nat): Part
    requires offset <= |file|
  {
    Part(offset, offset + |Chunk(file, offset)|, Encode(Chunk(file, offset)))
  }

  /** The parts sent from an offset on: a part for every read that gets anything, until a read meets the end of the file. */
  function Parts(file: seq<Octet>, offset: nat): seq<Part>
    requires offset <= |file|
    decreases |file| - offset
  {
    if offset == |file| then []
    else if |Chunk(file, offset)| < CHUNK then [PartAt(file, offset)]
    else [PartAt(file, offset)] + Parts(file, offset + CHUNK)
  }

  /** A part is appended when it decodes to as many bytes as it says. */
  function Receive(output: seq<Octet>, p: Part): seq<Octet> {
    match StrictDecode(p.data)
    case None => output
    case Some(bytes) => if p.start < INT && p.end < INT && |bytes| == p.end - p.start then output + bytes else output
  }

  function ReceiveAll(output: seq<Octet>, ps: seq<Part>): seq<Octet>
    decreases |ps|
  {
    if ps == [] then output else ReceiveAll(Receive(output, ps[0]), ps[1..])
  }

  lemma PartReceived(file: seq<Octet>, offset: nat, output: seq<Octet>)
    requires offset <= |file| < INT
    ensures Receive(output, PartAt(file, offset)) == output + Chunk(file, offset)
  {
    StrictTheorem(Chunk(file, offset));
  }

  /** The parts after the one at an offset. */
  function Later(file: seq<Octet>, offset: nat): seq<Part>
    requires offset <= |file|
  {
    if |Chunk(file, offset)| < CHUNK then [] else Parts(file, offset + CHUNK)
  }

  lemma NextPart(file: seq<Octet>, offset: nat, output: seq<Octet>)
    requires offset < |file| < INT
    ensures Parts(file, offset) == [PartAt(file, offset)] + Later(file, offset)
    ensures ReceiveAll(output, Parts(file, offset)) == ReceiveAll(output + Chunk(file, offset), Later(file, offset))
  {
    var p, later := PartAt(file, offset), Later(file, offset);
    assert ([p] + later)[1..] == later;
    assert ReceiveAll(output, [p] + later) == ReceiveAll(Receive(output, p), later);
    PartReceived(file, offset, output);
  }

  /** The parts from an offset on add the rest of the file. */
  lemma {:induction false} PartsReassemble(file: seq<Octet>, offset: nat, output: seq<Octet>, received: seq<Octet>)
    requires offset <= |file| < INT && received == ReceiveAll(output, Parts(file, offset))
    ensures received == output + file[offset..]
    decreases |file| - offset
  {
    if offset < |file| {
      var chunk := Chunk(file, offset);
      NextPart(file, offset, output);
      if |chunk| == CHUNK {
        PartsReassemble(file, offset + CHUNK, output + chunk, received);
        assert output + chunk + file[offset + CHUNK..] == output + file[offset..];
      }
    }
  }

  /** A read gets 8192 bytes, or what is left. */
  lemma ChunkSize(file: seq<Octet>, offset: nat)
    requires offset <= |file|
    ensures |Chunk(file, offset)| == if |file| - offset >= 8192 then 8192 else |file| - offset
    ensures Chunk(file, offset) == file[offset..offset + |Chunk(file, offset)|]
  {
  }

  /** A part adds as many bytes as it says, or nothing: it must decode strictly, and its numbers must fit. */
  lemma PartTheorem(output: seq<Octet>, p: Part)
    ensures var bytes := StrictDecode(p.data);
            if bytes.Some? && p.start < 0x8000_0000 && p.end < 0x8000_0000 && p.start + |bytes.value| == p.end
            then Receive(output, p) == output + bytes.value && |Receive(output, p)| - |output| == p.end - p.start
            else Receive(output, p) == output
  {
  }

  /** Every file that the server can count arrives byte for byte, whatever its length, multiples of the chunk included. */
  lemma UploadTheorem(file: seq<Octet>)
    requires |file| < 0x8000_0000
    ensures ReceiveAll([], Parts(file, 0)) == file
  {
    PartsReassemble(file, 0, [], ReceiveAll([], Parts(file, 0)));
    assert [] + file[0..] == file;
  }

  /** No empty part is sent, and every part but the last is full. */
  lemma {:induction false} PartsCount(file: seq<Octet>, offset: nat)
    requires offset <= |file|
    ensures |Parts(file, offset)| == (|file| - offset + 8191) / 8192
    ensures forall k :: 0 <= k < |Parts(file, offset)| ==>
      Parts(file, offset)[k].start == offset + k * 8192 < Parts(file, offset)[k].end
    decreases |file| - offset
  {
    if offset < |file| && |Chunk(file, offset)| == CHUNK {
      PartsCount(file, offset + CHUNK);
      forall k | 0 < k < |Parts(file, offset)|
        ensures Parts(file, offset)[k].start == offset + k * CHUNK < Parts(file, offset)[k].end
      {
        assert Parts(file, offset)[k] == Parts(file, offset + CHUNK)[k - 1];
      }
    }
  }

  lemma SentNext(file: seq<Octet>, offset: nat, before: seq<Part>, output: seq<Octet>)
    requires offset < |file| < INT && Parts(file, 0) == before + Parts(file, offset)
    requires ReceiveAll(output, Parts(file, offset)) == file
    ensures Parts(file, 0) == before + [PartAt(file, offset)] + Later(file, offset)
    ensures ReceiveAll(output + Chunk(file, offset), Later(file, offset)) == file
  {
    NextPart(file, offset, output);
    assert before + ([PartAt(file, offset)] + Later(file, offset)) == before + [PartAt(file, offset)] + Later(file, offset);
  }

  class ClientFileReceiver {
    var output: seq<Octet>

    constructor ()
      ensures output == []
    {
      output := [];
    }

    method ReceiveFilePart(p: Part)
      modifies this
      ensures output == Receive(old(output), p)
    {
      if p.start >= INT || p.end >= INT {
        return;
      }
      var buffer := StrictDecode(p.data);
      if buffer.Some? && |buffer.value| == p.end - p.start {
        output := output + buffer.value;
      }
    }
  }

  class FileUploader {
    const file: seq<Octet>
    const server: ClientFileReceiver
    var position: nat
    var eof: bool
    ghost var sent: seq<Part>

    constructor (file: seq<Octet>, server: ClientFileReceiver)
      ensures this.file == file && this.server == server && sent == []
    {
      this.file, this.server := file, server;
      position, eof, sent := 0, false, [];
    }

    /** Reads up to size bytes, and notes the end of the file when it wants more than there is. */
    method Read(size: nat) returns (bytes: seq<Octet>)
      requires position <= |file|
      modifies `position, `eof
      ensures position == Min(old(position) + size, |file|) && bytes == file[old(position)..position]
      ensures eof == (old(eof) || old(position) + size > |file|)
    {
      var end := if position + size <= |file| then position + size else |file|;
      bytes := file[position..end];
      eof := eof || position + size > |file|;
      position := end;
    }

    /** Seeks to an offset and makes a part of what is read there. */
    method ReadPart(offset: nat) returns (part: Part, n: nat)
      requires offset <= |file|
      modifies `position, `eof
      ensures n == |Chunk(file, offset)| && eof == (n < CHUNK) && part == PartAt(file, offset)
    {
      position, eof := offset, false;
      var bytes := Read(CHUNK);
      assert bytes == Chunk(file, offset);
      n := |bytes|;
      part := Part(offset, offset + n, Encode(bytes));
    }

    method SendFilePart(offset: nat) returns (bytesRead: nat)
      requires offset <= |file| < INT
      modifies `position, `eof, `sent, server
      ensures bytesRead == if |Chunk(file, offset)| < CHUNK then 0 else CHUNK
      ensures sent == old(sent) + if offset == |file| then [] else [PartAt(file, offset)]
      ensures server.output == old(server.output) + Chunk(file, offset)
    {
      var part, n := ReadPart(offset);
      bytesRead := if eof then 0 else n;
      PartReceived(file, offset, server.output);
      if n > 0 {
        server.ReceiveFilePart(part);
        sent := sent + [part];
      }
    }

    /** What is sent and received so far, and the parts still to send, make up the whole. */
    ghost predicate Sending(rest: seq<Part>)
      reads this, server
    {
      Parts(file, 0) == sent + rest && ReceiveAll(server.output, rest) == file
    }

    method SendNext(offset: nat) returns (bytesRead: nat)
      requires offset <= |file| < INT && Sending(Parts(file, offset))
      modifies `position, `eof, `sent, server
      ensures bytesRead == if |Chunk(file, offset)| < CHUNK then 0 else CHUNK
      ensures Sending(Later(file, offset))
    {
      ghost var before, output := sent, server.output;
      bytesRead := SendFilePart(offset);
      if offset < |file| {
        SentNext(file, offset, before, output);
      } else {
        assert output + [] == output;
      }
    }

    /** A file that the server accepts is sent part by part; of any other nothing is sent. */
    method SendFile() returns (ok: bool)
      requires server.output == [] && sent == []
      modifies `position, `eof, `sent, server
      ensures ok == (|file| < INT)
      ensures ok ==> sent == Parts(file, 0) && server.output == file
      ensures !ok ==> sent == [] && server.output == []
    {
      ok := |file| < INT;
      if ok {
        SendParts();
      }
    }

    method SendParts()
      requires server.output == [] && sent == [] && |file| < INT
      modifies `position, `eof, `sent, server
      ensures sent == Parts(file, 0) && server.output == file
    {
      UploadTheorem(file);
      assert [] + Parts(file, 0) == Parts(file, 0);
      var offset, bytesRead := 0, CHUNK;
      ghost var rest := Parts(file, 0);
      while bytesRead > 0
        invariant Sending(rest) && offset <= |file|
        invariant rest == if bytesRead > 0 then Parts(file, offset) else []
        decreases bytesRead > 0, |file| - offset
      {
        rest := Later(file, offset);
        bytesRead := SendNext(offset);
        offset := offset + bytesRead;
      }
      assert sent + [] == sent;
    }
  }
}
