/** Bytes and little-endian numbers. */
module Bytes {

  type Byte = x: int | 0 <= x < 256

  function U16At(s: seq<Byte>, i: nat): nat
    requires i + 2 <= |s|
  {
    s[i] as int + 0x100 * (s[i + 1] as int)
  }

  function U32At(s: seq<Byte>, i: nat): nat
    requires i + 4 <= |s|
  {
    U16At(s, i) + 0x1_0000 * U16At(s, i + 2)
  }

  /** The value a slice keeps when it is read within the whole. */
  lemma U32InSlice(s: seq<Byte>, a: nat, b: nat, i: nat)
    requires a <= b <= |s| && i + 4 <= b - a
    ensures U32At(s[a..b], i) == U32At(s, a + i)
  {
  }

  function Le16(n: nat): (s: seq<Byte>)
    ensures |s| == 2
  {
    [n % 0x100, n / 0x100 % 0x100]
  }

  function Le32(n: nat): (s: seq<Byte>)
    ensures |s| == 4
  {
    Le16(n) + Le16(n / 0x1_0000)
  }

  lemma Le16Decodes(n: nat)
    ensures U16At(Le16(n), 0) == n % 0x1_0000
  {
  }

  lemma HalvesOf(n: nat)
    ensures n % 0x1_0000_0000 == n % 0x1_0000 + 0x1_0000 * (n / 0x1_0000 % 0x1_0000)
  {
    var q := n / 0x1_0000 / 0x1_0000;
    assert n == q * 0x1_0000_0000 + (n / 0x1_0000 % 0x1_0000 * 0x1_0000 + n % 0x1_0000);
  }

  lemma Le32Decodes(n: nat)
    ensures U32At(Le32(n), 0) == n % 0x1_0000_0000
  {
    var low, high := Le16(n), Le16(n / 0x1_0000);
    assert U16At(low, 0) == n % 0x1_0000 by {
      Le16Decodes(n);
    }
    assert U16At(high, 0) == n / 0x1_0000 % 0x1_0000 by {
      Le16Decodes(n / 0x1_0000);
    }
    assert U16At(low + high, 0) == U16At(low, 0) && U16At(low + high, 2) == U16At(high, 0);
    HalvesOf(n);
  }

  lemma U16InSlice(s: seq<Byte>, a: nat, b: nat, i: nat)
    requires a <= b <= |s| && i + 2 <= b - a
    ensures U16At(s[a..b], i) == U16At(s, a + i)
  {
  }
}
