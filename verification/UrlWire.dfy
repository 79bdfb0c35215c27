/** URLs on their way from the server to a client. The server encodes them with the Java library's URLEncoder, whose
    triplets have upper-case digits; the client decodes them with its own decoder, whose encoder writes lower case. */
module UrlWire {
  import opened UrlCoding

  const LOWER := "0123456789abcdef"
  const UPPER := "0123456789ABCDEF"

  /** c is the digit of value i, in either case. */
  predicate IsDigit(c: Unit, i: nat)
    requires i < 16
  {
    c as int == LOWER[i] as int || c as int == UPPER[i] as int
  }

  lemma DigitValue(c: Unit, i: nat)
    requires i < 16 && IsDigit(c, i)
    ensures IsHex(c) && HexDigit(c) as int == i
  {
    if c <= 57 {
      assert HexDigit(c) == c - 48;
    } else if c <= 70 {
      assert HexDigit(c) == c - 65 + 10;
    } else {
      assert HexDigit(c) == c - 97 + 10;
    }
  }

  lemma PairValue(x: Unit, y: Unit)
    requires x < 16 && y < 16
    ensures ((x << 4) | y) == x * 16 + y && x * 16 + y < 256
  {
  }

  lemma PairInt(x: Unit, y: Unit)
    requires x < 16 && y < 16
    ensures (x * 16 + y) as int == (x as int) * 16 + y as int
  {
  }

  /** Two digits in any mix of cases are read as the number they write. */
  lemma HexTheorem(a: Unit, b: Unit, i: nat, j: nat)
    requires i < 16 && j < 16 && IsDigit(a, i) && IsDigit(b, j)
    ensures HexValue(a, b) as int == 16 * i + j
  {
    DigitValue(a, i);
    DigitValue(b, j);
    PairReads(a, b, HexDigit(a), HexDigit(b), i, j);
  }

  lemma PairReads(a: Unit, b: Unit, x: Unit, y: Unit, i: nat, j: nat)
    requires IsHex(a) && IsHex(b) && x == HexDigit(a) && y == HexDigit(b) && x as int == i < 16 && y as int == j < 16
    ensures HexValue(a, b) as int == 16 * i + j
  {
    var v := (x << 4) | y;
    assert HexValue(a, b) == v;
    PairNumber(x, y, v, i, j);
  }

  lemma PairNumber(x: Unit, y: Unit, v: Unit, i: nat, j: nat)
    requires v == (x << 4) | y && x as int == i < 16 && y as int == j < 16
    ensures v as int == 16 * i + j
  {
    PairValue(x, y);
    PairInt(x, y);
  }

  // ---- The server's encoder ----

  function UpperDigit(n: Unit): Unit {
    if n < 10 then n + 48 else n - 10 + 65
  }

  function UpperTriplet(b: Unit): seq<Unit> {
    [PERCENT, UpperDigit(b >> 4), UpperDigit(b & 0xF)]
  }

  lemma UpperDigits(n: Unit)
    requires n < 16
    ensures UpperDigit(n) as int == UPPER[n as int] as int
  {
    if n < 10 {
      assert UpperDigit(n) as int == n as int + 48;
    } else {
      assert UpperDigit(n) as int == n as int - 10 + 65;
    }
  }

  lemma UpperValue(b: Unit)
    requires b < 256
    ensures HexValue(UpperDigit(b >> 4), UpperDigit(b & 0xF)) == b
  {
  }

  /** The library leaves letters, digits and . - * _ alone. */
  predicate Safe(c: Unit) {
    65 <= c <= 90 || 97 <= c <= 122 || 48 <= c <= 57 || c == 46 || c == 45 || c == 42 || c == 95
  }

  predicate High(c: Unit) {
    0xD800 <= c <= 0xDBFF
  }

  predicate Low(c: Unit) {
    0xDC00 <= c <= 0xDFFF
  }

  /** A character of the basic plane in UTF-8. */
  function Utf8(c: Unit): seq<Unit> {
    if c <= 0x7F then [c]
    else if c <= 0x7FF then [0xC0 | (c >> 6), 0x80 | (c & 0x3F)]
    else [0xE0 | (c >> 12), 0x80 | ((c >> 6) & 0x3F), 0x80 | (c & 0x3F)]
  }

  /** A surrogate pair in UTF-8; w is what lies above the lower ten bits of the character. */
  function Utf8Pair(hi: Unit, lo: Unit): seq<Unit> {
    var w := (hi & 0x3FF) + 0x40;
    [0xF0 | (w >> 8), 0x80 | ((w >> 2) & 0x3F), 0x80 | ((w & 3) << 4) | ((lo & 0x3FF) >> 6), 0x80 | (lo & 0x3F)]
  }

  function Uppers(bytes: seq<Unit>): seq<Unit> {
    if bytes == [] then [] else UpperTriplet(bytes[0]) + Uppers(bytes[1..])
  }

  const QUESTION: Unit := 63

  function ServerCode(c: Unit): seq<Unit> {
    if Safe(c) then [c]
    else if c == SPACE then [PLUS]
    else if High(c) || Low(c) then Uppers(Utf8(QUESTION))
    else Uppers(Utf8(c))
  }

  predicate Paired(s: seq<Unit>) {
    |s| >= 2 && High(s[0]) && Low(s[1])
  }

  /** A surrogate without its partner is no character, and is sent as a question mark. */
  function ServerEncode(s: seq<Unit>): seq<Unit>
    decreases |s|
  {
    if s == [] then []
    else if Paired(s) then Uppers(Utf8Pair(s[0], s[1])) + ServerEncode(s[2..])
    else ServerCode(s[0]) + ServerEncode(s[1..])
  }

  // ---- What the client makes of it ----

  /** What the client hears: plus signs for spaces, question marks for lone surrogates, and nothing of a pair. */
  function Heard(s: seq<Unit>): seq<Unit>
    decreases |s|
  {
    if s == [] then []
    else if Paired(s) then Heard(s[2..])
    else [if High(s[0]) || Low(s[0]) then QUESTION else Plus(s[0])] + Heard(s[1..])
  }

  lemma DecodeUpper(b: Unit, rest: seq<Unit>, st: State)
    requires b < 256
    ensures Decode(UpperTriplet(b) + rest, st) == Emit(Take(b, st).out, Decode(rest, Take(b, st).state))
  {
    UpperValue(b);
    var text := UpperTriplet(b) + rest;
    assert text[0] == PERCENT && text[1] == UpperDigit(b >> 4) && text[2] == UpperDigit(b & 0xF) && text[3..] == rest;
  }

  predicate AllBytes(bytes: seq<Unit>) {
    forall i :: 0 <= i < |bytes| ==> bytes[i] < 256
  }

  /** What byte values in a row add to the output, and the state after them. */
  function TakeAll(bytes: seq<Unit>, st: State): Decoded {
    if bytes == [] then Decoded([], st)
    else Emit(Take(bytes[0], st).out, TakeAll(bytes[1..], Take(bytes[0], st).state))
  }

  lemma {:induction false} DecodeUppers(bytes: seq<Unit>, rest: seq<Unit>, st: State)
    requires AllBytes(bytes)
    ensures Decode(Uppers(bytes) + rest, st) == Emit(TakeAll(bytes, st).out, Decode(rest, TakeAll(bytes, st).state))
  {
    if bytes == [] {
      assert Uppers(bytes) + rest == rest;
      EmitTwice([], [], Decode(rest, st));
    } else {
      var st1 := Take(bytes[0], st).state;
      assert Uppers(bytes) + rest == UpperTriplet(bytes[0]) + (Uppers(bytes[1..]) + rest);
      DecodeUpper(bytes[0], Uppers(bytes[1..]) + rest, st);
      DecodeUppers(bytes[1..], rest, st1);
      EmitTwice(Take(bytes[0], st).out, TakeAll(bytes[1..], st1).out, Decode(rest, TakeAll(bytes[1..], st1).state));
    }
  }

  lemma Utf8Bytes(c: Unit)
    ensures AllBytes(Utf8(c))
  {
    BitsJoin(c);
  }

  /** No continuation byte is awaited. */
  predicate Rested(st: State) {
    st.sequence <= 0
  }

  /** The bytes of a character give the character back. */
  lemma TakeUtf8(c: Unit, st: State)
    requires Rested(st)
    ensures TakeAll(Utf8(c), st).out == [c] && Rested(TakeAll(Utf8(c), st).state)
  {
    if c <= 0x7F {
      TakeOne(c, st);
    } else if c <= 0x7FF {
      TakeUtf8Two(c, 0xC0 | (c >> 6), 0x80 | (c & 0x3F), st);
    } else {
      TakeUtf8Three(c, 0xE0 | (c >> 12), 0x80 | ((c >> 6) & 0x3F), 0x80 | (c & 0x3F), st);
    }
  }

  lemma TakeUtf8Two(c: Unit, x: Unit, y: Unit, st: State)
    requires 0x7F < c <= 0x7FF && x == 0xC0 | (c >> 6) && y == 0x80 | (c & 0x3F)
    ensures TakeAll([x, y], st) == Decoded([c], State(0, c))
  {
    BitsJoin(c);
    TakeTwo(x, y, st);
    assert KindOf(x) == FirstOfTwo && KindOf(y) == Partial;
    assert Take(x, st) == Decoded([], State(1, (x & 0x1F) << 6));
    assert Take(y, Take(x, st).state) == Decoded([c], State(0, c));
  }

  lemma TakeUtf8Three(c: Unit, x: Unit, y: Unit, z: Unit, st: State)
    requires c > 0x7FF && x == 0xE0 | (c >> 12) && y == 0x80 | ((c >> 6) & 0x3F) && z == 0x80 | (c & 0x3F)
    ensures TakeAll([x, y, z], st) == Decoded([c], State(0, c))
  {
    ThreeJoin(c, x, y, z);
    TakeParts(x, y, z, (x & 0xF) << 12, (y & 0x3F) << 6, z & 0x3F, c, st);
  }

  lemma TakeParts(x: Unit, y: Unit, z: Unit, a: Unit, b: Unit, d: Unit, c: Unit, st: State)
    requires 0xE0 <= x <= 0xEF && 0x80 <= y <= 0xBF && 0x80 <= z <= 0xBF
    requires a == (x & 0xF) << 12 && b == (y & 0x3F) << 6 && d == z & 0x3F && (a | b) | d == c
    ensures TakeAll([x, y, z], st) == Decoded([c], State(0, c))
  {
    TakeThree(x, y, z, st);
    FirstTaken(x, a, st);
    PartialTaken(y, 2, a, b);
    PartialTaken(z, 1, a | b, d);
    EmitTwice([], [], Decoded([c], State(0, c)));
  }

  lemma ThreeJoin(c: Unit, x: Unit, y: Unit, z: Unit)
    requires c > 0x7FF && x == 0xE0 | (c >> 12) && y == 0x80 | ((c >> 6) & 0x3F) && z == 0x80 | (c & 0x3F)
    ensures 0xE0 <= x <= 0xEF && 0x80 <= y <= 0xBF && 0x80 <= z <= 0xBF
    ensures (((x & 0xF) << 12) | ((y & 0x3F) << 6)) | (z & 0x3F) == c
  {
    BitsJoin(c);
  }

  lemma FirstTaken(x: Unit, a: Unit, st: State)
    requires 0xE0 <= x <= 0xEF && a == (x & 0xF) << 12
    ensures Take(x, st) == Decoded([], State(2, a))
  {
  }

  lemma PartialTaken(y: Unit, sequence: int, bits: Unit, more: Unit)
    requires 0x80 <= y <= 0xBF && more == if sequence == 2 then (y & 0x3F) << 6 else y & 0x3F
    ensures Take(y, State(sequence, bits)) ==
            Decoded(if sequence == 1 then [bits | more] else [], State(sequence - 1, bits | more))
  {
  }

  /** The four bytes of a pair: the first is ignored, the others are continuations of nothing. */
  lemma TakePair(hi: Unit, lo: Unit, st: State)
    requires High(hi) && Low(lo) && Rested(st)
    ensures AllBytes(Utf8Pair(hi, lo))
    ensures TakeAll(Utf8Pair(hi, lo), st).out == [] && Rested(TakeAll(Utf8Pair(hi, lo), st).state)
  {
    PairBytes(hi, lo);
    var bs := Utf8Pair(hi, lo);
    assert Take(bs[0], st) == Decoded([], st);
    assert bs[1..] == [bs[1], bs[2], bs[3]];
    TakeThree(bs[1], bs[2], bs[3], st);
  }

  lemma PairBytes(hi: Unit, lo: Unit)
    requires High(hi) && Low(lo)
    ensures var bs := Utf8Pair(hi, lo);
            0xF0 <= bs[0] < 256 && 0x80 <= bs[1] <= 0xBF && 0x80 <= bs[2] <= 0xBF && 0x80 <= bs[3] <= 0xBF
  {
  }

  lemma TakeOne(x: Unit, st: State)
    ensures TakeAll([x], st) == Take(x, st)
  {
    assert [x][1..] == [];
    assert TakeAll([], Take(x, st).state) == Decoded([], Take(x, st).state);
    assert Take(x, st).out + [] == Take(x, st).out;
  }

  lemma TakeTwo(x: Unit, y: Unit, st: State)
    ensures var a := Take(x, st);
            TakeAll([x, y], st) == Emit(a.out, Take(y, a.state))
  {
    assert [x, y][1..] == [y];
    TakeOne(y, Take(x, st).state);
  }

  lemma TakeThree(x: Unit, y: Unit, z: Unit, st: State)
    ensures var a := Take(x, st);
            var b := Take(y, a.state);
            TakeAll([x, y, z], st) == Emit(a.out, Emit(b.out, Take(z, b.state)))
  {
    assert [x, y, z][1..] == [y, z];
    TakeTwo(y, z, Take(x, st).state);
  }

  lemma DecodeServerCode(c: Unit, rest: seq<Unit>, st: State) returns (after: State)
    requires Rested(st)
    ensures Rested(after)
    ensures Decode(ServerCode(c) + rest, st) == Emit([if High(c) || Low(c) then QUESTION else Plus(c)], Decode(rest, after))
  {
    after := st;
    if Safe(c) || c == SPACE {
      DecodePlain(Plus(c), rest, st);
    } else {
      var d := if High(c) || Low(c) then QUESTION else c;
      Utf8Bytes(d);
      DecodeUppers(Utf8(d), rest, st);
      TakeUtf8(d, st);
      after := TakeAll(Utf8(d), st).state;
    }
  }

  /** What the client makes of every string that the server sends. */
  lemma {:induction false} WireTheorem(s: seq<Unit>, st: State)
    requires Rested(st)
    ensures Decode(ServerEncode(s), st).out == Heard(s)
    decreases |s|
  {
    if s != [] {
      if Paired(s) {
        TakePair(s[0], s[1], st);
        DecodeUppers(Utf8Pair(s[0], s[1]), ServerEncode(s[2..]), st);
        WireTheorem(s[2..], TakeAll(Utf8Pair(s[0], s[1]), st).state);
      } else {
        var after := DecodeServerCode(s[0], ServerEncode(s[1..]), st);
        WireTheorem(s[1..], after);
      }
    }
  }

  lemma {:induction false} HeardPlain(s: seq<Unit>)
    requires forall i :: 0 <= i < |s| ==> !High(s[i]) && !Low(s[i])
    ensures Heard(s) == PlusAll(s)
    decreases |s|
  {
    if s != [] {
      HeardPlain(s[1..]);
    }
  }

  lemma {:induction false} HeardLength(s: seq<Unit>)
    ensures |Heard(s)| <= |s|
    decreases |s|
  {
    if s != [] {
      if Paired(s) {
        HeardLength(s[2..]);
      } else {
        HeardLength(s[1..]);
      }
    }
  }

  /** A string comes through unchanged if and only if it has no space and no surrogate. */
  lemma {:induction false} HeardSame(s: seq<Unit>)
    ensures Heard(s) == s <==> forall i :: 0 <= i < |s| ==> !High(s[i]) && !Low(s[i]) && s[i] != SPACE
    decreases |s|
  {
    if s != [] {
      if Paired(s) {
        HeardLength(s[2..]);
        assert High(s[0]);
      } else {
        HeardSame(s[1..]);
        assert s == [s[0]] + s[1..];
        assert Heard(s)[0] == s[0] ==> !High(s[0]) && !Low(s[0]) && s[0] != SPACE;
        assert forall i :: 1 <= i < |s| ==> s[i] == s[1..][i - 1];
        if Heard(s) == s {
          assert Heard(s)[1..] == s[1..] && Heard(s)[1..] == Heard(s[1..]);
        }
      }
    }
  }

  /** The URL that a client visits is the one the server sent exactly if it has no space and no surrogate. */
  lemma WireIdentity(s: seq<Unit>)
    ensures Decode(ServerEncode(s), State(0, 0)).out == s <==>
              forall i :: 0 <= i < |s| ==> !High(s[i]) && !Low(s[i]) && s[i] != SPACE
  {
    WireTheorem(s, State(0, 0));
    HeardSame(s);
  }

  // ---- Broken triplets ----

  /** Digits are read up to the first character that is none: without any the triplet stands for the unit 0. */
  lemma BrokenTriplet(a: Unit, b: Unit, rest: seq<Unit>, st: State)
    ensures !IsHex(a) ==> Decode([PERCENT, a, b] + rest, st) == Emit([0], Decode(rest, st))
    ensures IsHex(a) && !IsHex(b) ==> Decode([PERCENT, a, b] + rest, st) == Emit([HexDigit(a)], Decode(rest, st))
    ensures IsHex(a) <==> exists i: nat :: i < 16 && IsDigit(a, i)
  {
    var text := [PERCENT, a, b] + rest;
    assert text[0] == PERCENT && text[1] == a && text[2] == b && text[3..] == rest;
    if IsHex(a) {
      HexSmall(a);
    }
    HexCharacters(a);
  }

  lemma HexSmall(a: Unit)
    requires IsHex(a)
    ensures HexDigit(a) < 16
  {
  }

  lemma HexCharacters(a: Unit)
    ensures IsHex(a) <==> exists i: nat :: i < 16 && IsDigit(a, i)
  {
    if IsHex(a) {
      var i := if a <= 57 then a as int - 48 else if a <= 70 then a as int - 55 else a as int - 87;
      assert IsDigit(a, i);
    }
    if i: nat :| i < 16 && IsDigit(a, i) {
      DigitValue(a, i);
    }
  }

  /** Text without percent signs, and a percent sign less than two characters before the end, stand for themselves. */
  lemma {:induction false} Verbatim(text: seq<Unit>, st: State)
    requires forall i :: 0 <= i < |text| - 2 ==> text[i] != PERCENT
    ensures Decode(text, st) == Decoded(text, st)
    decreases |text|
  {
    if text != [] {
      Verbatim(text[1..], st);
      assert text == [text[0]] + text[1..];
    }
  }

  // ---- The client's encoder, in characters ----

  const MARKS := "-_.!~*'()"

  /** The client leaves letters, digits and marks alone: the unreserved characters of section 2.3 of RFC 2396. */
  lemma PlainCharacters(c: Unit)
    ensures Plain(c) <==>
              || 'A' as int <= c as int <= 'Z' as int || 'a' as int <= c as int <= 'z' as int
              || '0' as int <= c as int <= '9' as int || exists i :: 0 <= i < 9 && MARKS[i] as int == c as int
    ensures PERCENT as int == '%' as int && SPACE as int == ' ' as int && PLUS as int == '+' as int
  {
    assert MARKS[0] == '-' && MARKS[1] == '_' && MARKS[2] == '.' && MARKS[3] == '!' && MARKS[4] == '~';
    assert MARKS[5] == '*' && MARKS[6] == '\'' && MARKS[7] == '(' && MARKS[8] == ')';
  }

  /** It writes lower-case digits, the higher one first. */
  lemma TripletCharacters(x: Unit, y: Unit)
    requires x < 16 && y < 16
    ensures x * 16 + y < 256
    ensures var t := Triplet(x * 16 + y);
            t[0] == PERCENT && t[1] as int == LOWER[x as int] as int && t[2] as int == LOWER[y as int] as int
  {
    Nibbles(x, y);
    LowerDigit(x, x as int);
    LowerDigit(y, y as int);
  }

  lemma LowerDigit(n: Unit, i: nat)
    requires n as int == i < 16
    ensures Digit(n) as int == LOWER[i] as int
  {
    if n < 10 {
      assert Digit(n) as int == n as int + 48;
    } else {
      assert Digit(n) as int == n as int - 10 + 97;
    }
  }

  lemma Nibbles(x: Unit, y: Unit)
    requires x < 16 && y < 16
    ensures (x * 16 + y) >> 4 == x && (x * 16 + y) & 0xF == y && x * 16 + y < 256
  {
  }
}
