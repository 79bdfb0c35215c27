/** The client's percent coding of URLs: 16-bit units as UTF-8 (section 3 of RFC 3629) in percent triplets (section
    2.1 of RFC 3986). */
module UrlCoding {

  type Unit = bv16

  const PERCENT: Unit := 37
  const SPACE: Unit := 32
  const PLUS: Unit := 43

  /** Letters, digits and - _ . ! ~ * ' ( ) stand for themselves. */
  predicate Plain(c: Unit) {
    65 <= c <= 90 || 97 <= c <= 122 || 48 <= c <= 57 || c == 45 || c == 95 || c == 46 || c == 33 || c == 126
    || c == 42 || c == 39 || c == 40 || c == 41
  }

  function Digit(n: Unit): Unit {
    if n < 10 then n + 48 else n - 10 + 97
  }

  /** The entry of the table of triplets. */
  function Triplet(b: Unit): seq<Unit>
    requires b < 256
  {
    [PERCENT, Digit(b >> 4), Digit(b & 0xF)]
  }

  function Code(c: Unit): seq<Unit> {
    if Plain(c) then [c]
    else if c == SPACE then [PLUS]
    else if c <= 0x7F then Triplet(c)
    else if c <= 0x7FF then Triplet(0xC0 | (c >> 6)) + Triplet(0x80 | (c & 0x3F))
    else Triplet(0xE0 | (c >> 12)) + Triplet(0x80 | ((c >> 6) & 0x3F)) + Triplet(0x80 | (c & 0x3F))
  }

  function Encode(s: seq<Unit>): seq<Unit> {
    if s == [] then [] else Code(s[0]) + Encode(s[1..])
  }

  predicate IsHex(c: Unit) {
    48 <= c <= 57 || 97 <= c <= 102 || 65 <= c <= 70
  }

  function HexDigit(c: Unit): Unit {
    if c <= 57 then c - 48 else if c <= 70 then c - 65 + 10 else c - 97 + 10
  }

  /** The number read from two characters after 0x, up to the first that is no digit. */
  function HexValue(a: Unit, b: Unit): Unit {
    if !IsHex(a) then 0
    else if !IsHex(b) then HexDigit(a)
    else (HexDigit(a) << 4) | HexDigit(b)
  }

  /** How many bytes of a character are still to come, and its bits so far. */
  datatype State = State(sequence: int, bits: Unit)

  datatype Decoded = Decoded(out: seq<Unit>, state: State)

  function Emit(out: seq<Unit>, rest: Decoded): Decoded {
    Decoded(out + rest.out, rest.state)
  }

  /** The bits of a continuation byte, in their place. */
  function PartialBits(v: Unit, sequence: int): Unit {
    if sequence == 2 then (v & 0x3F) << 6 else v & 0x3F
  }

  /** What the decoder takes a byte value for. */
  datatype ByteKind = Ascii | Partial | FirstOfTwo | FirstOfThree | Unknown

  function KindOf(v: Unit): ByteKind {
    if v <= 0x7F then Ascii
    else if 0x80 <= v <= 0xBF then Partial
    else if 0xC0 <= v <= 0xDF then FirstOfTwo
    else if 0xE0 <= v <= 0xEF then FirstOfThree
    else Unknown
  }

  function FirstBits(v: Unit, kind: ByteKind): Unit {
    if kind == FirstOfTwo then (v & 0x1F) << 6 else (v & 0xF) << 12
  }

  /** What one byte value adds to the output, and the state after it. */
  function Take(v: Unit, st: State): Decoded {
    TakeKind(v, KindOf(v), st)
  }

  function TakeKind(v: Unit, kind: ByteKind, st: State): Decoded {
    match kind
    case Ascii => Decoded([v], st)
    case Partial =>
      var bits := st.bits | PartialBits(v, st.sequence);
      Decoded(if st.sequence == 1 then [bits] else [], State(st.sequence - 1, bits))
    case FirstOfTwo => Decoded([], State(1, FirstBits(v, kind)))
    case FirstOfThree => Decoded([], State(2, FirstBits(v, kind)))
    case Unknown => Decoded([], st)
  }

  /** Decoding; a percent sign that two more characters do not follow stands for itself. */
  function Decode(text: seq<Unit>, st: State): Decoded
    decreases |text|
  {
    if text == [] then Decoded([], st)
    else if text[0] == PERCENT && |text| >= 3 then
      var taken := Take(HexValue(text[1], text[2]), st);
      Emit(taken.out, Decode(text[3..], taken.state))
    else Emit([text[0]], Decode(text[1..], st))
  }

  /** What decoding makes of a character: a space comes back as a plus sign. */
  function Plus(c: Unit): Unit {
    if c == SPACE then PLUS else c
  }

  function PlusAll(s: seq<Unit>): (t: seq<Unit>)
    ensures |t| == |s| && forall i :: 0 <= i < |s| ==> t[i] == Plus(s[i])
  {
    if s == [] then [] else [Plus(s[0])] + PlusAll(s[1..])
  }

  lemma TripletValue(b: Unit)
    requires b < 256
    ensures HexValue(Digit(b >> 4), Digit(b & 0xF)) == b
  {
  }

  lemma DecodeTriplet(b: Unit, rest: seq<Unit>, st: State)
    requires b < 256
    ensures Decode(Triplet(b) + rest, st) == Emit(Take(b, st).out, Decode(rest, Take(b, st).state))
  {
    TripletValue(b);
    var text := Triplet(b) + rest;
    assert text[0] == PERCENT && text[1] == Digit(b >> 4) && text[2] == Digit(b & 0xF) && text[3..] == rest;
  }

  /** The bits of a character, before and after it is taken apart. */
  lemma BitsJoin(c: Unit)
    ensures 0x7F < c <= 0x7FF ==> 0xC0 <= 0xC0 | (c >> 6) <= 0xDF && (((0xC0 | (c >> 6)) & 0x1F) << 6) | (c & 0x3F) == c
    ensures 0x80 <= 0x80 | (c & 0x3F) <= 0xBF && (0x80 | (c & 0x3F)) & 0x3F == c & 0x3F
    ensures c > 0x7FF ==> 0xE0 <= 0xE0 | (c >> 12) <= 0xEF
    ensures 0x80 <= 0x80 | ((c >> 6) & 0x3F) <= 0xBF && (0x80 | ((c >> 6) & 0x3F)) & 0x3F == (c >> 6) & 0x3F
    ensures c > 0x7FF ==> ((((0xE0 | (c >> 12)) & 0xF) << 12) | (((c >> 6) & 0x3F) << 6)) | (c & 0x3F) == c
  {
  }

  predicate AtRest(st: State) {
    st.sequence == 0
  }

  lemma EmitTwice(a: seq<Unit>, b: seq<Unit>, d: Decoded)
    ensures Emit(a, Emit(b, d)) == Emit(a + b, d) && Emit([], d) == d
  {
    assert a + (b + d.out) == a + b + d.out && [] + d.out == d.out;
  }

  lemma DecodeTwo(c: Unit, rest: seq<Unit>, st: State)
    requires 0x7F < c <= 0x7FF
    ensures Decode(Triplet(0xC0 | (c >> 6)) + (Triplet(0x80 | (c & 0x3F)) + rest), st) == Emit([c], Decode(rest, State(0, c)))
  {
    BitsJoin(c);
    var x, y := 0xC0 | (c >> 6), 0x80 | (c & 0x3F);
    var st1 := Take(x, st).state;
    DecodeTriplet(x, Triplet(y) + rest, st);
    DecodeTriplet(y, rest, st1);
    EmitTwice([], [c], Decode(rest, State(0, c)));
  }

  lemma DecodeThree(c: Unit, rest: seq<Unit>, st: State)
    requires c > 0x7FF
    ensures Decode(Triplet(0xE0 | (c >> 12)) + (Triplet(0x80 | ((c >> 6) & 0x3F)) + (Triplet(0x80 | (c & 0x3F)) + rest)), st)
         == Emit([c], Decode(rest, State(0, c)))
  {
    BitsJoin(c);
    var x, y, z := 0xE0 | (c >> 12), 0x80 | ((c >> 6) & 0x3F), 0x80 | (c & 0x3F);
    var st1 := Take(x, st).state;
    var st2 := Take(y, st1).state;
    DecodeTriplet(x, Triplet(y) + (Triplet(z) + rest), st);
    DecodeTriplet(y, Triplet(z) + rest, st1);
    DecodeTriplet(z, rest, st2);
    EmitTwice([], [c], Decode(rest, State(0, c)));
    EmitTwice([], [], Emit([c], Decode(rest, State(0, c))));
  }

  /** The state after the code of a character. */
  function StateAfter(c: Unit, st: State): State {
    if c <= 0x7F then st else State(0, c)
  }

  lemma DecodePlain(c: Unit, rest: seq<Unit>, st: State)
    requires c != PERCENT
    ensures Decode([c] + rest, st) == Emit([c], Decode(rest, st))
  {
    assert ([c] + rest)[1..] == rest;
  }

  lemma Nested<T>(a: seq<T>, b: seq<T>, c: seq<T>, d: seq<T>)
    ensures a + b + d == a + (b + d) && a + b + c + d == a + (b + (c + d))
  {
  }

  /** One character's code decodes to the character, and the state is at rest again. */
  lemma DecodeCode(c: Unit, rest: seq<Unit>, st: State)
    ensures Decode(Code(c) + rest, st) == Emit([Plus(c)], Decode(rest, StateAfter(c, st)))
    ensures AtRest(st) ==> AtRest(StateAfter(c, st))
  {
    if Plain(c) || c == SPACE {
      DecodePlain(Plus(c), rest, st);
    } else if c <= 0x7F {
      DecodeTriplet(c, rest, st);
    } else if c <= 0x7FF {
      DecodeTwo(c, rest, st);
      Nested(Triplet(0xC0 | (c >> 6)), Triplet(0x80 | (c & 0x3F)), [], rest);
    } else {
      DecodeThree(c, rest, st);
      Nested(Triplet(0xE0 | (c >> 12)), Triplet(0x80 | ((c >> 6) & 0x3F)), Triplet(0x80 | (c & 0x3F)), rest);
    }
  }

  /** Decoding an encoding gives the string with every space turned into a plus sign, and ends at rest. */
  lemma {:induction false} RoundTrip(s: seq<Unit>, st: State)
    requires AtRest(st)
    ensures Decode(Encode(s), st).out == PlusAll(s) && AtRest(Decode(Encode(s), st).state)
  {
    if s != [] {
      DecodeCode(s[0], Encode(s[1..]), st);
      RoundTrip(s[1..], StateAfter(s[0], st));
    }
  }

  /** A string survives the round trip if and only if it has no space. */
  lemma IdentityTheorem(s: seq<Unit>, st: State)
    requires AtRest(st)
    ensures Decode(Encode(s), st).out == s <==> SPACE !in s
  {
    RoundTrip(s, st);
    if SPACE in s {
      var i :| 0 <= i < |s| && s[i] == SPACE;
      assert PlusAll(s)[i] == PLUS;
    }
  }

  /** A space and a plus sign decode alike, but their codes begin differently. */
  lemma CodesDiffer(c: Unit, d: Unit)
    requires Plus(c) == Plus(d) && Code(c)[0] == Code(d)[0]
    ensures c == d
  {
  }

  lemma EncodeParts(s: seq<Unit>)
    requires s != []
    ensures Code(s[0]) != [] && Encode(s) != [] && Encode(s)[0] == Code(s[0])[0]
    ensures |Code(s[0])| <= |Encode(s)| && Encode(s)[|Code(s[0])|..] == Encode(s[1..])
  {
  }

  /** Different strings have different encodings, spaces and plus signs included. */
  lemma {:induction false} EncodeInjective(s: seq<Unit>, t: seq<Unit>)
    requires Encode(s) == Encode(t)
    ensures s == t
  {
    assert PlusAll(s) == PlusAll(t) by {
      RoundTrip(s, State(0, 0));
      RoundTrip(t, State(0, 0));
    }
    if s != [] {
      assert Plus(s[0]) == PlusAll(s)[0] && Plus(t[0]) == PlusAll(t)[0];
      EncodeParts(s);
      EncodeParts(t);
      CodesDiffer(s[0], t[0]);
      EncodeInjective(s[1..], t[1..]);
      assert s == [s[0]] + s[1..] && t == [t[0]] + t[1..];
    }
  }

  // ---- The loops ----

  lemma {:induction false} EncodeNext(s: seq<Unit>, c: Unit)
    ensures Encode(s + [c]) == Encode(s) + Code(c)
  {
    if s == [] {
      assert s + [c] == [c] && [c][1..] == [];
    } else {
      assert (s + [c])[1..] == s[1..] + [c];
      EncodeNext(s[1..], c);
    }
  }

  method EncodeText(text: seq<Unit>) returns (encoded: seq<Unit>)
    ensures encoded == Encode(text)
  {
    encoded := [];
    for i := 0 to |text|
      invariant encoded == Encode(text[..i])
    {
      var wch := text[i];
      EncodeNext(text[..i], wch);
      assert text[..i + 1] == text[..i] + [wch];
      if Plain(wch) {
        encoded := encoded + [wch];
      } else if wch == SPACE {
        encoded := encoded + [PLUS];
      } else if wch <= 0x7F {
        encoded := encoded + Triplet(wch);
      } else if wch <= 0x7FF {
        encoded := encoded + (Triplet(0xC0 | (wch >> 6)) + Triplet(0x80 | (wch & 0x3F)));
      } else {
        encoded := encoded + (Triplet(0xE0 | (wch >> 12)) + Triplet(0x80 | ((wch >> 6) & 0x3F)) + Triplet(0x80 | (wch & 0x3F)));
      }
    }
    assert text[..|text|] == text;
  }

  /** One byte value of a kind taken into the output and the state. */
  method TakeByte(tconwch: Unit, kind: ByteKind, decoded: seq<Unit>, sequence: int, conwch: Unit)
    returns (decoded': seq<Unit>, sequence': int, conwch': Unit)
    ensures var taken := TakeKind(tconwch, kind, State(sequence, conwch));
            decoded' == decoded + taken.out && State(sequence', conwch') == taken.state
  {
    decoded', sequence', conwch' := decoded, sequence, conwch;
    match kind {
      case Ascii =>
        decoded' := decoded + [tconwch];
      case Partial =>
        sequence' := sequence - 1;
        conwch' := conwch | PartialBits(tconwch, sequence);
        if sequence' == 0 {
          decoded' := decoded + [conwch'];
        }
      case FirstOfTwo =>
        conwch' := FirstBits(tconwch, kind);
        sequence' := 1;
      case FirstOfThree =>
        conwch' := FirstBits(tconwch, kind);
        sequence' := 2;
      case Unknown =>
    }
  }

  /** What is decoded so far and what is left to decode make up the whole. */
  ghost predicate DecodedTo(text: seq<Unit>, decoded: seq<Unit>, i: nat, st: State) {
    i <= |text| && Decode(text, State(0, 0)) == Emit(decoded, Decode(text[i..], st))
  }

  lemma DecodedTriplet(text: seq<Unit>, decoded: seq<Unit>, i: nat, st: State, taken: Decoded)
    requires DecodedTo(text, decoded, i, st) && i + 2 < |text| && text[i] == PERCENT
    requires taken == Take(HexValue(text[i + 1], text[i + 2]), st)
    ensures DecodedTo(text, decoded + taken.out, i + 3, taken.state)
  {
    assert text[i..][3..] == text[i + 3..];
    EmitTwice(decoded, taken.out, Decode(text[i + 3..], taken.state));
  }

  lemma DecodedUnit(text: seq<Unit>, decoded: seq<Unit>, i: nat, st: State)
    requires DecodedTo(text, decoded, i, st) && i < |text| && !(text[i] == PERCENT && i + 2 < |text|)
    ensures DecodedTo(text, decoded + [text[i]], i + 1, st)
  {
    assert text[i..][1..] == text[i + 1..];
    EmitTwice(decoded, [text[i]], Decode(text[i + 1..], st));
  }

  method DecodeText(text: seq<Unit>) returns (decoded: seq<Unit>)
    ensures decoded == Decode(text, State(0, 0)).out
  {
    decoded := [];
    var sequence, conwch := 0, 0;
    var i := 0;
    assert text[0..] == text;
    EmitTwice([], [], Decode(text, State(0, 0)));
    while i < |text|
      invariant DecodedTo(text, decoded, i, State(sequence, conwch))
      decreases |text| - i
    {
      var wch := text[i];
      i := i + 1;
      if wch == PERCENT && i + 1 < |text| {
        ghost var taken := Take(HexValue(text[i], text[i + 1]), State(sequence, conwch));
        DecodedTriplet(text, decoded, i - 1, State(sequence, conwch), taken);
        var high := text[i];
        i := i + 1;
        var low := text[i];
        var tconwch := HexValue(high, low);
        decoded, sequence, conwch := TakeByte(tconwch, KindOf(tconwch), decoded, sequence, conwch);
      } else {
        i := i - 1;
        DecodedUnit(text, decoded, i, State(sequence, conwch));
        decoded := decoded + [text[i]];
      }
      i := i + 1;
    }
    assert decoded + [] == decoded;
  }
}
