/** The Base64 codec as the client runs it, over allocated buffers with moving positions. */
module Base64Buffers {
  import opened Base64

  function BlockAt(x: seq<Octet>, i: nat): seq<Octet>
    requires i < |x|
  {
    EncodeBlock(x[i], if i + 1 < |x| then x[i + 1] else 0, if i + 2 < |x| then x[i + 2] else 0)
  }

  /** What is left after the block at i. */
  function NextBlock(x: seq<Octet>, i: nat): nat {
    if i + 3 < |x| then i + 3 else |x|
  }

  lemma BlocksFrom(x: seq<Octet>, i: nat)
    requires i < |x|
    ensures Blocks(x[i..]) == BlockAt(x, i) + Blocks(x[NextBlock(x, i)..])
  {
    var rest := x[i..];
    if |rest| > 3 {
      assert rest[3..] == x[i + 3..];
    } else {
      assert x[|x|..] == [];
    }
  }

  /** One block of characters written at k. */
  method WriteBlock(buffer: array<Octet>, k: nat, a: Octet, b: Octet, c: Octet)
    requires k + 4 <= buffer.Length
    modifies buffer
    ensures buffer[..k + 4] == old(buffer[..k]) + EncodeBlock(a, b, c)
  {
    var block := a as bv32 << 16;
    block := block | (b as bv32 << 8);
    block := block | c as bv32;
    buffer[k] := Symbol(Sextet(block >> 18));
    buffer[k + 1] := Symbol(Sextet(block >> 12));
    buffer[k + 2] := Symbol(Sextet(block >> 6));
    buffer[k + 3] := Symbol(Sextet(block));
  }

  /** The encoding so far and what is still to encode make up the whole. */
  ghost predicate EncodedTo(x: seq<Octet>, out: seq<Octet>, i: nat) {
    i <= |x| && Blocks(x) == out + Blocks(x[i..])
  }

  lemma EncodedNext(x: seq<Octet>, out: seq<Octet>, i: nat)
    requires i < |x| && EncodedTo(x, out, i)
    ensures EncodedTo(x, out + BlockAt(x, i), NextBlock(x, i)) && |out| + 4 <= |Blocks(x)|
  {
    BlocksFrom(x, i);
    var rest := Blocks(x[NextBlock(x, i)..]);
    assert out + (BlockAt(x, i) + rest) == out + BlockAt(x, i) + rest;
  }

  lemma EncodedAll(x: seq<Octet>, out: seq<Octet>)
    ensures EncodedTo(x, [], 0)
    ensures EncodedTo(x, out, |x|) ==> out == Blocks(x)
  {
    assert x[0..] == x && [] + Blocks(x) == Blocks(x);
    assert x[|x|..] == [] && out + [] == out;
  }

  method EncodeBlocks(clear: array<Octet>, buffer: array<Octet>) returns (k: nat)
    requires buffer != clear && 4 * Groups(clear.Length) <= buffer.Length
    modifies buffer
    ensures k == 4 * Groups(clear.Length) && buffer[..k] == Blocks(clear[..])
  {
    ghost var x := clear[..];
    BlocksLength(x);
    EncodedAll(x, []);
    k := 0;
    var i := 0;
    while i < clear.Length
      invariant k <= buffer.Length && clear[..] == x
      invariant EncodedTo(x, buffer[..k], if i < |x| then i else |x|)
    {
      EncodedNext(x, buffer[..k], i);
      WriteBlock(buffer, k, clear[i], if i + 1 < clear.Length then clear[i + 1] else 0,
                 if i + 2 < clear.Length then clear[i + 2] else 0);
      k := k + 4;
      i := i + 3;
    }
    EncodedAll(x, buffer[..k]);
  }

  /** The characters of the last block that carry no bits, overwritten. */
  method PadBuffer(buffer: array<Octet>, k: nat, remainder: nat)
    requires 0 < remainder < 3 && 4 <= k <= buffer.Length
    modifies buffer
    ensures buffer[..k] == old(buffer[..k])[..k - (3 - remainder)] + Pads(3 - remainder)
  {
    var i := remainder;
    while i < 3
      invariant remainder <= i <= 3
      invariant forall j :: 0 <= j < k ==> buffer[j] == if k - (3 - remainder) <= j < k - (3 - i) then PAD else old(buffer[j])
    {
      buffer[k - (3 - i)] := PAD;
      i := i + 1;
    }
  }

  method EncodeBuffer(clear: array<Octet>) returns (buffer: array<Octet>, encodedLength: nat)
    ensures fresh(buffer) && buffer.Length == encodedLength + 2 && encodedLength == 4 * ((clear.Length + 2) / 3)
    ensures buffer[..encodedLength] == Encode(clear[..])
  {
    var nBlocks := clear.Length / 3;
    var remainder := clear.Length % 3;
    if remainder != 0 {
      nBlocks := nBlocks + 1;
    }
    GroupsAre(clear.Length);
    buffer := new Octet[nBlocks * 4 + 2];
    encodedLength := EncodeBlocks(clear, buffer);
    if remainder > 0 {
      PadBuffer(buffer, encodedLength, remainder);
    } else {
      assert buffer[..encodedLength] + Pads(0) == buffer[..encodedLength];
    }
  }

  /** What is decoded so far and the groups still to decode make up the whole. */
  ghost predicate DecodedTo(text: seq<Octet>, out: seq<Octet>, groups: nat) {
    4 * groups <= |text| && |out| == 3 * groups && Decode(text) == out + Decode(text[4 * groups..])
  }

  lemma DecodedNext(text: seq<Octet>, out: seq<Octet>, g: nat, group: seq<Octet>)
    requires DecodedTo(text, out, g) && 4 * g + 4 <= |text| && group == text[4 * g..4 * g + 4]
    ensures DecodedTo(text, out + DecodeGroup(group[0], group[1], group[2], group[3]), g + 1)
  {
    assert text[4 * g..][4..] == text[4 * (g + 1)..];
    var bytes, rest := DecodeGroup(group[0], group[1], group[2], group[3]), Decode(text[4 * (g + 1)..]);
    assert Decode(text[4 * g..]) == bytes + rest;
    assert out + (bytes + rest) == out + bytes + rest;
  }

  lemma DecodedAll(text: seq<Octet>, out: seq<Octet>, groups: nat)
    ensures DecodedTo(text, [], 0)
    ensures DecodedTo(text, out, groups) && |text| < 4 * groups + 4 ==> out == Decode(text)
  {
    assert text[0..] == text && [] + Decode(text) == Decode(text);
    assert out + [] == out;
  }

  method WriteGroup(buffer: array<Octet>, position: nat, encoded: array<Octet>)
    requires position + 3 <= buffer.Length && encoded.Length == 4 && encoded != buffer
    modifies buffer
    ensures buffer[..position + 3] == old(buffer[..position]) + DecodeGroup(encoded[0], encoded[1], encoded[2], encoded[3])
  {
    buffer[position] := First(Index(encoded[0]), Index(encoded[1]));
    buffer[position + 1] := Second(Index(encoded[1]), Index(encoded[2]));
    buffer[position + 2] := Third(Index(encoded[2]), Index(encoded[3]));
  }

  lemma Remainder(i: nat, g: nat)
    requires 4 * g <= i <= 4 * g + 4
    ensures if i == 4 * g + 4 then i % 4 == 0 else i % 4 == i - 4 * g
  {
  }

  method TakeGroup(buffer: array<Octet>, position: nat, encoded: array<Octet>, ghost text: seq<Octet>, ghost g: nat)
    requires position < buffer.Length == |text| && encoded.Length == 4 && encoded != buffer
    requires DecodedTo(text, buffer[..position], g) && 4 * g + 4 <= |text| && encoded[..] == text[4 * g..4 * g + 4]
    modifies buffer
    ensures position + 3 <= buffer.Length && DecodedTo(text, buffer[..position + 3], g + 1)
  {
    assert position == |buffer[..position]| == 3 * g;
    DecodedNext(text, buffer[..position], g, encoded[..]);
    WriteGroup(buffer, position, encoded);
  }

  /** Before character i: the groups before the last characters are decoded, and those characters are collected. */
  ghost predicate Collected(text: seq<Octet>, out: seq<Octet>, encoded: seq<Octet>, i: nat, groups: nat) {
    && 4 * groups <= i <= 4 * groups + 4 && i <= |text| && |encoded| == 4 && (i == 4 * groups ==> i == 0)
    && DecodedTo(text, out, groups) && encoded[..i - 4 * groups] == text[4 * groups..i]
  }

  /** Decodes a full group before character i, if there is one. */
  method FlushGroup(buffer: array<Octet>, position: nat, encoded: array<Octet>, i: nat, ghost text: seq<Octet>, ghost groups: nat)
    returns (position': nat, ghost groups': nat)
    requires position <= buffer.Length == |text| && encoded != buffer
    requires Collected(text, buffer[..position], encoded[..], i, groups)
    modifies buffer
    ensures position' <= buffer.Length && 4 * groups' <= i < 4 * groups' + 4
    ensures DecodedTo(text, buffer[..position'], groups') && encoded[..i - 4 * groups'] == text[4 * groups'..i]
  {
    position', groups' := position, groups;
    Remainder(i, groups);
    if i > 0 && i % 4 == 0 {
      assert encoded[..] == encoded[..4];
      TakeGroup(buffer, position, encoded, text, groups);
      position', groups' := position + 3, groups + 1;
    }
  }

  method FeedCharacter(buffer: array<Octet>, position: nat, encoded: array<Octet>, i: nat, c: Octet,
                       ghost text: seq<Octet>, ghost groups: nat) returns (position': nat, ghost groups': nat)
    requires position <= buffer.Length == |text| && encoded != buffer && i < |text| && c == text[i]
    requires Collected(text, buffer[..position], encoded[..], i, groups)
    modifies buffer, encoded
    ensures position' <= buffer.Length && Collected(text, buffer[..position'], encoded[..], i + 1, groups')
  {
    position', groups' := FlushGroup(buffer, position, encoded, i, text, groups);
    Remainder(i, groups');
    encoded[i % 4] := c;
    assert encoded[..i + 1 - 4 * groups'] == text[4 * groups'..i] + [text[i]];
  }

  method DecodeGroups(encodedBuffer: array<Octet>, len: nat, buffer: array<Octet>) returns (position: nat)
    requires len < encodedBuffer.Length && buffer.Length == len && buffer != encodedBuffer
    modifies buffer
    ensures position <= len && buffer[..position] == Decode(encodedBuffer[..len])
  {
    ghost var text := encodedBuffer[..len];
    ghost var groups: nat := 0;
    DecodedAll(text, [], 0);
    position := 0;
    var encoded := new Octet[4];
    for i := 0 to len
      invariant position <= len && encodedBuffer[..len] == text
      invariant Collected(text, buffer[..position], encoded[..], i, groups)
    {
      position, groups := FeedCharacter(buffer, position, encoded, i, encodedBuffer[i], text, groups);
    }
    position, groups := FlushGroup(buffer, position, encoded, len, text, groups);
    encoded[len % 4] := encodedBuffer[len];
    DecodedAll(text, buffer[..position], groups);
  }

  /** A terminated string is decoded up to its terminator; what is decoded is terminated too where there is room. */
  method DecodeBuffer(encodedBuffer: array<Octet>, len: nat) returns (buffer: array<Octet>, position: nat)
    requires len < encodedBuffer.Length
    ensures fresh(buffer) && buffer.Length == len && position <= len
    ensures buffer[..position] == Decode(encodedBuffer[..len])
    ensures position < len ==> buffer[position] == 0
  {
    buffer := new Octet[len];
    position := DecodeGroups(encodedBuffer, len, buffer);
    if position < len {
      buffer[position] := 0;
    }
  }
}
