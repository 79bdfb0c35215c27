/** The client's Base64 codec over buffers, and decoding as section 4 of RFC 4648 describes it. */
module Base64 {
  import opened Prelude

  type Octet = bv8

  const PAD: Octet := 61

  /** What the table gives for a character outside the alphabet. */
  const XX: Octet := 100

  /** The alphabet: A-Z, a-z, 0-9, + and /. */
  function Symbol(v: bv8): Octet
    requires v < 64
  {
    if v < 26 then v + 65
    else if v < 52 then v - 26 + 97
    else if v < 62 then v - 52 + 48
    else if v == 62 then 43
    else 47
  }

  function Index(c: Octet): bv8 {
    if 65 <= c <= 90 then c - 65
    else if 97 <= c <= 122 then c - 97 + 26
    else if 48 <= c <= 57 then c - 48 + 52
    else if c == 43 then 62
    else if c == 47 then 63
    else XX
  }

  function Sextet(block: bv32): (v: bv8)
    ensures v < 64
  {
    (block & 0x3F) as bv8
  }

  /** One block of three bytes as four characters. */
  function EncodeBlock(a: Octet, b: Octet, c: Octet): (s: seq<Octet>)
    ensures |s| == 4
  {
    var block := (a as bv32 << 16) | (b as bv32 << 8) | c as bv32;
    [Symbol(Sextet(block >> 18)), Symbol(Sextet(block >> 12)), Symbol(Sextet(block >> 6)), Symbol(Sextet(block))]
  }

  function First(i: bv8, j: bv8): Octet {
    (i << 2) | (j >> 4)
  }

  function Second(j: bv8, k: bv8): Octet {
    (j << 4) | (k >> 2)
  }

  function Third(k: bv8, l: bv8): Octet {
    (k << 6) | l
  }

  function DecodeGroup(p: Octet, q: Octet, r: Octet, s: Octet): (t: seq<Octet>)
    ensures |t| == 3
  {
    [First(Index(p), Index(q)), Second(Index(q), Index(r)), Third(Index(r), Index(s))]
  }

  /** All blocks, with zeros for what the last one lacks. */
  function Blocks(x: seq<Octet>): seq<Octet>
    decreases |x|
  {
    if x == [] then []
    else EncodeBlock(x[0], if |x| > 1 then x[1] else 0, if |x| > 2 then x[2] else 0) + Blocks(if |x| > 3 then x[3..] else [])
  }

  function Padding(n: nat): nat {
    if n % 3 == 0 then 0 else 3 - n % 3
  }

  function Pads(n: nat): (s: seq<Octet>)
    ensures |s| == n
  {
    seq(n, _ => PAD)
  }

  /** The encoding: the last characters that carry no bits are replaced by padding. */
  function Encode(x: seq<Octet>): seq<Octet>
  {
    BlocksLength(x);
    Blocks(x)[..|Blocks(x)| - Padding(|x|)] + Pads(Padding(|x|))
  }

  /** The client's decoding: whole groups of four, padding decoded like any character outside the alphabet. */
  function Decode(text: seq<Octet>): seq<Octet> {
    if |text| < 4 then [] else DecodeGroup(text[0], text[1], text[2], text[3]) + Decode(text[4..])
  }

  /** Strict decoding: only the alphabet, padding only at the end of the last group. */
  function StrictDecode(text: seq<Octet>): Option<seq<Octet>> {
    if text == [] then Some([])
    else if |text| < 4 || Index(text[0]) == XX || Index(text[1]) == XX then None
    else
      var bytes := DecodeGroup(text[0], text[1], text[2], text[3]);
      if |text| == 4 && text[2] == text[3] == PAD then Some(bytes[..1])
      else if Index(text[2]) == XX then None
      else if |text| == 4 && text[3] == PAD then Some(bytes[..2])
      else if Index(text[3]) == XX then None
      else
        match StrictDecode(text[4..])
        case None => None
        case Some(rest) => Some(bytes + rest)
  }

  /** The number of blocks that n bytes make. */
  function Groups(n: nat): (g: nat)
    ensures n > 0 ==> g > 0
  {
    if n == 0 then 0 else 1 + Groups(if n > 3 then n - 3 else 0)
  }

  lemma {:induction false} GroupsAre(n: nat)
    ensures Groups(n) == (n + 2) / 3
  {
    if n > 3 {
      GroupsAre(n - 3);
    }
  }

  lemma {:induction false} BlocksLength(x: seq<Octet>)
    ensures |Blocks(x)| == 4 * Groups(|x|)
    decreases |x|
  {
    if |x| > 3 {
      BlocksLength(x[3..]);
    }
  }

  lemma SymbolIndex(v: bv8)
    requires v < 64
    ensures Index(Symbol(v)) == v && Symbol(v) != PAD
  {
  }

  lemma BlockIndices(a: Octet, b: Octet, c: Octet, block: bv32)
    requires block == (a as bv32 << 16) | (b as bv32 << 8) | c as bv32
    ensures var e := EncodeBlock(a, b, c);
            && Index(e[0]) == Sextet(block >> 18) && Index(e[1]) == Sextet(block >> 12)
            && Index(e[2]) == Sextet(block >> 6) && Index(e[3]) == Sextet(block)
            && PAD !in e
  {
    SymbolIndex(Sextet(block >> 18));
    SymbolIndex(Sextet(block >> 12));
    SymbolIndex(Sextet(block >> 6));
    SymbolIndex(Sextet(block));
  }

  const ROW0 := "ABCDEFGHIJKLMNOP"
  const ROW1 := "QRSTUVWXYZabcdef"
  const ROW2 := "ghijklmnopqrstuv"
  const ROW3 := "wxyz0123456789+/"

  /** The alphabet of section 4 of RFC 4648, row by row. */
  function Letter(v: nat): char
    requires v < 64
  {
    if v < 16 then ROW0[v] else if v < 32 then ROW1[v - 16] else if v < 48 then ROW2[v - 32] else ROW3[v - 48]
  }

  lemma SymbolCharacter(v: bv8)
    requires v < 64
    ensures Symbol(v) as int == Letter(v as int) as int
  {
    if v < 26 {
      assert Symbol(v) as int == v as int + 65;
    } else if v < 52 {
      assert Symbol(v) as int == v as int - 26 + 97;
    } else if v < 62 {
      assert Symbol(v) as int == v as int - 52 + 48;
    }
  }

  lemma PadCharacter()
    ensures PAD as int == '=' as int
  {
  }

  lemma SymbolOfIndex(c: Octet)
    requires Index(c) != XX
    ensures Index(c) < 64 && Symbol(Index(c)) == c
  {
  }

  /** A character with an index is that letter of the alphabet; one without is no letter. */
  lemma IndexTheorem(c: Octet, v: bv8)
    requires v < 64
    ensures Index(c) != XX ==> Index(c) < 64 && c as int == Letter(Index(c) as int) as int
    ensures Index(c) == XX ==> c as int != Letter(v as int) as int
  {
    if Index(c) != XX {
      SymbolOfIndex(c);
      SymbolCharacter(Index(c));
    } else {
      SymbolCharacter(v);
      SymbolIndex(v);
      assert Symbol(v) != c;
    }
  }

  /** Four digits in base 64, the highest first. */
  function Number(v0: bv8, v1: bv8, v2: bv8, v3: bv8): bv32 {
    (v0 as bv32) * 262144 + (v1 as bv32) * 4096 + (v2 as bv32) * 64 + v3 as bv32
  }

  /** They write the three bytes as one number of 24 bits, the first byte highest. */
  lemma BlockTheorem(a: Octet, b: Octet, c: Octet)
    ensures var e := EncodeBlock(a, b, c);
            Number(Index(e[0]), Index(e[1]), Index(e[2]), Index(e[3])) == (a as bv32) * 65536 + (b as bv32) * 256 + c as bv32
  {
    var block := (a as bv32 << 16) | (b as bv32 << 8) | c as bv32;
    BlockIndices(a, b, c, block);
    BlockNumber(a, b, c, block);
    SextetSum(block, Sextet(block >> 18), Sextet(block >> 12), Sextet(block >> 6), Sextet(block));
  }

  lemma BlockNumber(a: Octet, b: Octet, c: Octet, block: bv32)
    requires block == (a as bv32 << 16) | (b as bv32 << 8) | c as bv32
    ensures block == (a as bv32) * 65536 + (b as bv32) * 256 + c as bv32 && block < 0x100_0000
  {
  }

  lemma SextetSum(block: bv32, v0: bv8, v1: bv8, v2: bv8, v3: bv8)
    requires block < 0x100_0000
    requires v0 == Sextet(block >> 18) && v1 == Sextet(block >> 12) && v2 == Sextet(block >> 6) && v3 == Sextet(block)
    ensures Number(v0, v1, v2, v3) == block
  {
  }

  /** A group decodes to the bytes of its block, whatever stands in the places of missing characters. */
  lemma GroupDecodes(a: Octet, b: Octet, c: Octet, r: Octet, s: Octet)
    ensures var e := EncodeBlock(a, b, c);
            && DecodeGroup(e[0], e[1], e[2], e[3]) == [a, b, c]
            && DecodeGroup(e[0], e[1], e[2], s)[..2] == [a, b]
            && DecodeGroup(e[0], e[1], r, s)[0] == a
  {
    var e := EncodeBlock(a, b, c);
    assert First(Index(e[0]), Index(e[1])) == a && Second(Index(e[1]), Index(e[2])) == b && Third(Index(e[2]), Index(e[3])) == c by {
      var block := (a as bv32 << 16) | (b as bv32 << 8) | c as bv32;
      BlockIndices(a, b, c, block);
      SextetsJoin(a, b, c, block);
    }
  }

  lemma SextetsJoin(a: Octet, b: Octet, c: Octet, block: bv32)
    requires block == (a as bv32 << 16) | (b as bv32 << 8) | c as bv32
    ensures First(Sextet(block >> 18), Sextet(block >> 12)) == a
    ensures Second(Sextet(block >> 12), Sextet(block >> 6)) == b
    ensures Third(Sextet(block >> 6), Sextet(block)) == c
  {
  }

  lemma PaddedTail(head: seq<Octet>, rest: seq<Octet>, n: nat, pads: seq<Octet>)
    requires n <= |rest|
    ensures (head + rest)[..|head + rest| - n] + pads == head + (rest[..|rest| - n] + pads)
  {
    assert (head + rest)[..|head + rest| - n] == head + rest[..|rest| - n];
  }

  /** The encoding block by block. */
  lemma EncodeStep(x: seq<Octet>)
    requires |x| > 3
    ensures Encode(x) == EncodeBlock(x[0], x[1], x[2]) + Encode(x[3..])
  {
    BlocksLength(x[3..]);
    assert Blocks(x) == EncodeBlock(x[0], x[1], x[2]) + Blocks(x[3..]);
    PaddedTail(EncodeBlock(x[0], x[1], x[2]), Blocks(x[3..]), Padding(|x|), Pads(Padding(|x|)));
    assert Padding(|x[3..]|) == Padding(|x|);
  }

  /** The encoding of the last one, two or three bytes. */
  lemma EncodeLast(x: seq<Octet>)
    requires 1 <= |x| <= 3
    ensures var e := EncodeBlock(x[0], if |x| > 1 then x[1] else 0, if |x| > 2 then x[2] else 0);
            Encode(x) == if |x| == 1 then [e[0], e[1], PAD, PAD] else if |x| == 2 then [e[0], e[1], e[2], PAD] else e
  {
    var e := EncodeBlock(x[0], if |x| > 1 then x[1] else 0, if |x| > 2 then x[2] else 0);
    assert Blocks([]) == [] && Blocks(x) == e;
  }

  lemma EncodeLength(x: seq<Octet>)
    ensures |Encode(x)| == 4 * ((|x| + 2) / 3)
  {
    BlocksLength(x);
    GroupsAre(|x|);
  }

  lemma DecodeStep(e: seq<Octet>, rest: seq<Octet>)
    requires |e| == 4
    ensures Decode(e + rest) == DecodeGroup(e[0], e[1], e[2], e[3]) + Decode(rest)
  {
    assert (e + rest)[4..] == rest;
  }

  lemma {:induction false} DecodeLength(text: seq<Octet>)
    ensures |Decode(text)| == 3 * (|text| / 4)
  {
    if |text| >= 4 {
      DecodeLength(text[4..]);
    }
  }

  /** The client decodes its own encoding: the bytes come back first, followed by what the padding decodes to. */
  lemma DecodeTheorem(x: seq<Octet>)
    ensures |Decode(Encode(x))| == 3 * ((|x| + 2) / 3) && Decode(Encode(x))[..|x|] == x
  {
    DecodeEncoded(x, Encode(x), Decode(Encode(x)));
    EncodeLength(x);
    DecodeLength(Encode(x));
  }

  lemma {:induction false} DecodeEncoded(x: seq<Octet>, text: seq<Octet>, d: seq<Octet>)
    requires text == Encode(x) && d == Decode(text)
    ensures |x| <= |d| && d[..|x|] == x
    decreases |x|
  {
    if |x| > 3 {
      EncodeStep(x);
      DecodeMore(x[0], x[1], x[2], Encode(x[3..]));
      var rest := Decode(Encode(x[3..]));
      DecodeEncoded(x[3..], Encode(x[3..]), rest);
      FirstThree(x, rest);
    } else if x != [] {
      EncodeLast(x);
      DecodeLast(x, if |x| > 1 then x[1] else 0, if |x| > 2 then x[2] else 0);
    }
  }

  lemma FirstThree(x: seq<Octet>, rest: seq<Octet>)
    requires |x| > 3 && |x| - 3 <= |rest| && rest[..|x| - 3] == x[3..]
    ensures ([x[0], x[1], x[2]] + rest)[..|x|] == x
  {
    assert ([x[0], x[1], x[2]] + rest)[..|x|] == [x[0], x[1], x[2]] + rest[..|x| - 3];
    assert x == [x[0], x[1], x[2]] + x[3..];
  }

  lemma DecodeMore(a: Octet, b: Octet, c: Octet, rest: seq<Octet>)
    ensures Decode(EncodeBlock(a, b, c) + rest) == [a, b, c] + Decode(rest)
  {
    GroupDecodes(a, b, c, 0, 0);
    DecodeStep(EncodeBlock(a, b, c), rest);
  }

  lemma DecodeLast(x: seq<Octet>, b: Octet, c: Octet)
    requires 1 <= |x| <= 3 && (if |x| > 1 then b == x[1] else b == 0) && (if |x| > 2 then c == x[2] else c == 0)
    ensures var e := EncodeBlock(x[0], b, c);
            var d := Decode(if |x| == 1 then [e[0], e[1], PAD, PAD] else if |x| == 2 then [e[0], e[1], e[2], PAD] else e);
            |d| == 3 && d[..|x|] == x
  {
    var e := EncodeBlock(x[0], b, c);
    GroupDecodes(x[0], b, c, PAD, PAD);
    var text := if |x| == 1 then [e[0], e[1], PAD, PAD] else if |x| == 2 then [e[0], e[1], e[2], PAD] else e;
    DecodeStep(text, []);
    assert text + [] == text;
    assert Decode(text) == DecodeGroup(text[0], text[1], text[2], text[3]);
  }

  lemma StrictStep(a: Octet, b: Octet, c: Octet, rest: seq<Octet>)
    requires rest != [] || PAD !in EncodeBlock(a, b, c)
    requires StrictDecode(rest).Some?
    ensures StrictDecode(EncodeBlock(a, b, c) + rest) == Some([a, b, c] + StrictDecode(rest).value)
  {
    var e := EncodeBlock(a, b, c);
    GroupDecodes(a, b, c, 0, 0);
    BlockValid(a, b, c);
    assert (e + rest)[4..] == rest;
  }

  lemma BlockValid(a: Octet, b: Octet, c: Octet)
    ensures forall i :: 0 <= i < 4 ==> Index(EncodeBlock(a, b, c)[i]) != XX && EncodeBlock(a, b, c)[i] != PAD
  {
    BlockIndices(a, b, c, (a as bv32 << 16) | (b as bv32 << 8) | c as bv32);
  }

  /** The strict decoding of the client's encoding gives back every sequence of bytes. */
  lemma {:induction false} StrictTheorem(x: seq<Octet>)
    ensures StrictDecode(Encode(x)) == Some(x)
    decreases |x|
  {
    if x == [] {
      EncodeLength(x);
    } else if |x| > 3 {
      EncodeStep(x);
      StrictTheorem(x[3..]);
      EncodeLength(x[3..]);
      StrictStep(x[0], x[1], x[2], Encode(x[3..]));
      assert x == [x[0], x[1], x[2]] + x[3..];
    } else {
      EncodeLast(x);
      StrictLast(x, if |x| > 1 then x[1] else 0, if |x| > 2 then x[2] else 0);
    }
  }

  lemma StrictLast(x: seq<Octet>, b: Octet, c: Octet)
    requires 1 <= |x| <= 3 && (if |x| > 1 then b == x[1] else b == 0) && (if |x| > 2 then c == x[2] else c == 0)
    ensures var e := EncodeBlock(x[0], b, c);
            StrictDecode(if |x| == 1 then [e[0], e[1], PAD, PAD] else if |x| == 2 then [e[0], e[1], e[2], PAD] else e) == Some(x)
  {
    var e := EncodeBlock(x[0], b, c);
    BlockValid(x[0], b, c);
    GroupDecodes(x[0], b, c, PAD, PAD);
    if |x| == 3 {
      StrictStep(x[0], b, c, []);
      assert e + [] == e && x == [x[0], b, c] + [];
    } else if |x| == 2 {
      assert DecodeGroup(e[0], e[1], e[2], PAD)[..2] == [x[0], b] == x;
    } else {
      assert DecodeGroup(e[0], e[1], PAD, PAD)[..1] == [x[0]] == x;
    }
  }

  /** Strict decoding accepts only whole groups of letters, with padding in the last two places at most. */
  lemma {:induction false} StrictAccepts(text: seq<Octet>)
    requires StrictDecode(text).Some?
    ensures |text| % 4 == 0 && 3 * (|text| / 4) - 2 <= |StrictDecode(text).value| <= 3 * (|text| / 4)
    ensures forall i :: 0 <= i < |text| ==> Index(text[i]) != XX || (text[i] == PAD && i >= |text| - 2)
  {
    if |text| > 4 {
      StrictAccepts(text[4..]);
      assert forall i :: 4 <= i < |text| ==> text[i] == text[4..][i - 4];
    }
  }

  /** What a decoded padding leaves behind the bytes: the table's entry for other characters is 100. */
  function PaddingBytes(n: nat): seq<Octet> {
    if n % 3 == 1 then [25, 100] else if n % 3 == 2 then [100] else []
  }

  lemma PaddingLeaves(a: Octet, b: Octet)
    ensures var e := EncodeBlock(a, 0, 0); DecodeGroup(e[0], e[1], PAD, PAD) == [a, 25, 100]
    ensures var e := EncodeBlock(a, b, 0); DecodeGroup(e[0], e[1], e[2], PAD) == [a, b, 100]
  {
    GroupDecodes(a, 0, 0, PAD, PAD);
    GroupDecodes(a, b, 0, PAD, PAD);
    TailBits(a, 0);
    TailBits(a, b);
  }

  /** The bits of a sextet that no byte of the text fills are zero. */
  lemma TailBits(a: Octet, b: Octet)
    ensures Index(EncodeBlock(a, 0, 0)[1]) << 4 == 0
    ensures Index(EncodeBlock(a, b, 0)[2]) << 6 == 0
  {
    BlockIndices(a, 0, 0, (a as bv32 << 16) | (0 as bv32 << 8) | 0 as bv32);
    BlockIndices(a, b, 0, (a as bv32 << 16) | (b as bv32 << 8) | 0 as bv32);
  }

  lemma DecodeLastExactly(x: seq<Octet>)
    requires 1 <= |x| <= 3
    ensures Decode(Encode(x)) == x + PaddingBytes(|x|)
  {
    EncodeLast(x);
    var b, c := if |x| > 1 then x[1] else 0, if |x| > 2 then x[2] else 0;
    var e := EncodeBlock(x[0], b, c);
    GroupDecodes(x[0], b, c, PAD, PAD);
    PaddingLeaves(x[0], b);
    var text := Encode(x);
    DecodeStep(text, []);
    assert text + [] == text;
  }

  lemma JoinExactly(x: seq<Octet>, pads: seq<Octet>)
    requires |x| > 3
    ensures [x[0], x[1], x[2]] + (x[3..] + pads) == x + pads && PaddingBytes(|x|) == PaddingBytes(|x[3..]|)
  {
    assert x == [x[0], x[1], x[2]] + x[3..];
  }

  /** The client's decoder, exactly: the bytes, and what the padding leaves. */
  lemma {:induction false} DecodeExactly(x: seq<Octet>, text: seq<Octet>)
    requires text == Encode(x)
    ensures Decode(text) == x + PaddingBytes(|x|)
    decreases |x|
  {
    if |x| > 3 {
      var rest := Encode(x[3..]);
      EncodeStep(x);
      DecodeMore(x[0], x[1], x[2], rest);
      DecodeExactly(x[3..], rest);
      JoinExactly(x, PaddingBytes(|x|));
    } else if x == [] {
      EncodeLength(x);
    } else {
      DecodeLastExactly(x);
    }
  }
}
