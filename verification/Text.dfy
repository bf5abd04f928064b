/** Texts as sequences of Unicode scalar values and their UTF-16 form (section 2.1 of RFC 2781). */
module Utf16 {

  type Rune = c: int | 0 <= c < 0xD800 || 0xE000 <= c <= 0x10FFFF witness 0
  type Unit = u: int | 0 <= u < 0x10000

  const NEWLINE: Rune := 10
  const CARRIAGE_RETURN: Rune := 13
  const TAB: Rune := 9
  const SPACE: Rune := 32

  predicate IsLowSurrogate(u: Unit) {
    0xDC00 <= u <= 0xDFFF
  }

  function EncodeRune(c: Rune): (units: seq<Unit>)
    ensures 1 <= |units| <= 2
    ensures !IsLowSurrogate(units[0])
  {
    if c < 0x10000 then [c]
    else [0xD800 + (c - 0x10000) / 0x400, 0xDC00 + (c - 0x10000) % 0x400]
  }

  /** `utf16.Encode([]rune(text))`. */
  function Encode(text: seq<Rune>): (units: seq<Unit>)
    ensures |units| >= |text|
    ensures units != [] ==> !IsLowSurrogate(units[0])
  {
    if text == [] then [] else EncodeRune(text[0]) + Encode(text[1..])
  }

  /** The number of bytes of the UTF-8 form: Go's `len` of a string. */
  function Utf8Length(text: seq<Rune>): nat {
    if text == [] then 0
    else (if text[0] < 0x80 then 1 else if text[0] < 0x800 then 2 else if text[0] < 0x10000 then 3 else 4)
         + Utf8Length(text[1..])
  }

  lemma EncodeFirst(c: Rune, rest: seq<Rune>)
    ensures Encode([c] + rest) == EncodeRune(c) + Encode(rest)
  {
    assert ([c] + rest)[1..] == rest;
  }

  lemma Reassociate(a: seq<Unit>, b: seq<Unit>, c: seq<Unit>)
    ensures a + (b + c) == a + b + c
  {
  }

  lemma {:induction false} EncodeConcat(a: seq<Rune>, b: seq<Rune>)
    ensures Encode(a + b) == Encode(a) + Encode(b)
  {
    if a == [] {
      assert a + b == b;
    } else {
      var c, rest := a[0], a[1..];
      assert a == [c] + rest && a + b == [c] + (rest + b);
      EncodeConcat(rest, b);
      EncodeFirst(c, rest + b);
      EncodeFirst(c, rest);
      Reassociate(EncodeRune(c), Encode(rest), Encode(b));
    }
  }

  /** The text whose UTF-16 form these units are, if they are well formed: every high surrogate is followed by a low one. */
  function Decode(units: seq<Unit>): (text: seq<int>) {
    if units == [] then []
    else if |units| >= 2 && 0xD800 <= units[0] < 0xDC00 && IsLowSurrogate(units[1])
    then [0x10000 + (units[0] - 0xD800) * 0x400 + (units[1] - 0xDC00)] + Decode(units[2..])
    else [units[0]] + Decode(units[1..])
  }

  lemma DecodeFirst(c: Rune, rest: seq<Unit>)
    ensures Decode(EncodeRune(c) + rest) == [c] + Decode(rest)
  {
    assert (EncodeRune(c) + rest)[|EncodeRune(c)|..] == rest;
  }

  /** Decoding gives the text back, so the UTF-16 form loses nothing and entity positions are well defined. */
  lemma {:induction false} EncodeRoundTrip(text: seq<Rune>)
    ensures Decode(Encode(text)) == text
  {
    if text != [] {
      DecodeFirst(text[0], Encode(text[1..]));
      EncodeRoundTrip(text[1..]);
    }
  }
}
