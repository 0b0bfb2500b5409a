/** UTF-8, as far as `FourCC` needs it: `str::as_bytes` (the encoding of a
    string) and `String::from_utf8_lossy` (decoding that replaces each
    maximal ill-formed subsequence by U+FFFD). */
module Utf8 {

  type Byte = b: int | 0 <= b < 0x100

  const REPLACEMENT: char := 0xFFFD as char

  /** The encoding of one Unicode scalar value: 1 to 4 bytes. */
  function EncodeChar(c: char): (bs: seq<Byte>)
    ensures 1 <= |bs| <= 4
  {
    var n := c as int;
    if n < 0x80 then [n]
    else if n < 0x800 then [0xC0 + n / 0x40, 0x80 + n % 0x40]
    else if n < 0x1_0000 then
      [0xE0 + n / 0x1000, 0x80 + (n / 0x40) % 0x40, 0x80 + n % 0x40]
    else
      [0xF0 + n / 0x4_0000, 0x80 + (n / 0x1000) % 0x40, 0x80 + (n / 0x40) % 0x40, 0x80 + n % 0x40]
  }

  /** `s.as_bytes()`. */
  function Encode(s: string): seq<Byte>
  {
    if |s| == 0 then [] else EncodeChar(s[0]) + Encode(s[1..])
  }

  predicate IsCont(b: Byte) {
    0x80 <= b <= 0xBF
  }

  /** The sequence length announced by a lead byte, 0 for a byte that
      cannot start a well-formed sequence. */
  function Width(b0: Byte): nat
  {
    if b0 < 0x80 then 1
    else if 0xC2 <= b0 <= 0xDF then 2
    else if 0xE0 <= b0 <= 0xEF then 3
    else if 0xF0 <= b0 <= 0xF4 then 4
    else 0
  }

  /** Whether the byte after lead byte `b0` is acceptable (Table 3-7 of the
      Unicode Standard narrows it after E0, ED, F0 and F4). */
  predicate SecondOk(b0: Byte, b1: Byte) {
    if b0 == 0xE0 then 0xA0 <= b1 <= 0xBF
    else if b0 == 0xED then 0x80 <= b1 <= 0x9F
    else if b0 == 0xF0 then 0x90 <= b1 <= 0xBF
    else if b0 == 0xF4 then 0x80 <= b1 <= 0x8F
    else IsCont(b1)
  }

  /** How many bytes after the lead byte continue the sequence correctly
      (at most `Width(bs[0]) - 1`). */
  function Valid(bs: seq<Byte>): (k: nat)
    requires |bs| >= 1 && Width(bs[0]) >= 2
    ensures k < Width(bs[0]) && k < |bs|
  {
    var w := Width(bs[0]);
    if |bs| < 2 || !SecondOk(bs[0], bs[1]) then 0
    else if w == 2 || |bs| < 3 || !IsCont(bs[2]) then 1
    else if w == 3 || |bs| < 4 || !IsCont(bs[3]) then 2
    else 3
  }

  /** The scalar value of a well-formed sequence of width `Width(bs[0])`. */
  function Scalar(bs: seq<Byte>): char
    requires |bs| >= 1 && Width(bs[0]) >= 2 && Valid(bs) == Width(bs[0]) - 1
  {
    var w := Width(bs[0]);
    var b0: int := bs[0];
    var b1: int := bs[1];
    if w == 2 then ((b0 - 0xC0) * 0x40 + (b1 - 0x80)) as char
    else
      var b2: int := bs[2];
      if w == 3 then ((b0 - 0xE0) * 0x1000 + (b1 - 0x80) * 0x40 + (b2 - 0x80)) as char
      else
        var b3: int := bs[3];
        ((b0 - 0xF0) * 0x4_0000 + (b1 - 0x80) * 0x1000 + (b2 - 0x80) * 0x40 + (b3 - 0x80)) as char
  }

  /** One decoding step: the next character and how many bytes it used. An
      ill-formed or truncated sequence becomes one U+FFFD covering its
      lead byte and the continuation bytes that were still acceptable. */
  function Step(bs: seq<Byte>): (r: (char, nat))
    requires |bs| >= 1
    ensures 1 <= r.1 <= |bs|
  {
    var w := Width(bs[0]);
    if w == 1 then (bs[0] as char, 1)
    else if w == 0 then (REPLACEMENT, 1)
    else
      var k := Valid(bs);
      if k == w - 1 then (Scalar(bs), w) else (REPLACEMENT, 1 + k)
  }

  /** `String::from_utf8_lossy(bs)`. */
  function DecodeLossy(bs: seq<Byte>): string
    decreases |bs|
  {
    if |bs| == 0 then ""
    else
      var r := Step(bs);
      [r.0] + DecodeLossy(bs[r.1..])
  }

  lemma Split2(n: int)
    requires 0x80 <= n < 0x800
    ensures 0xC2 <= 0xC0 + n / 0x40 <= 0xDF
    ensures n == (n / 0x40) * 0x40 + n % 0x40 && 0 <= n % 0x40 < 0x40
  {
  }

  lemma Split3(n: int)
    requires 0x800 <= n < 0x1_0000 && !(0xD800 <= n < 0xE000)
    ensures 0 <= n / 0x1000 < 0x10
    ensures n / 0x1000 == 0 ==> 0x20 <= (n / 0x40) % 0x40
    ensures n / 0x1000 == 0xD ==> (n / 0x40) % 0x40 < 0x20
    ensures n / 0x40 == (n / 0x1000) * 0x40 + (n / 0x40) % 0x40 && 0 <= (n / 0x40) % 0x40 < 0x40
    ensures n == (n / 0x40) * 0x40 + n % 0x40 && 0 <= n % 0x40 < 0x40
  {
  }

  lemma Split4(n: int)
    requires 0x1_0000 <= n < 0x11_0000
    ensures 0 <= n / 0x4_0000 <= 4
    ensures n / 0x4_0000 == 0 ==> 0x10 <= (n / 0x1000) % 0x40
    ensures n / 0x4_0000 == 4 ==> (n / 0x1000) % 0x40 < 0x10
    ensures n / 0x1000 == (n / 0x4_0000) * 0x40 + (n / 0x1000) % 0x40 && 0 <= (n / 0x1000) % 0x40 < 0x40
    ensures n / 0x40 == (n / 0x1000) * 0x40 + (n / 0x40) % 0x40 && 0 <= (n / 0x40) % 0x40 < 0x40
    ensures n == (n / 0x40) * 0x40 + n % 0x40 && 0 <= n % 0x40 < 0x40
  {
  }

  lemma StepEncodeChar(c: char, rest: seq<Byte>)
    ensures Step(EncodeChar(c) + rest) == (c, |EncodeChar(c)|)
  {
    var n := c as int;
    var bs := EncodeChar(c) + rest;
    if n < 0x80 {
    } else if n < 0x800 {
      Split2(n);
    } else if n < 0x1_0000 {
      Split3(n);
    } else {
      Split4(n);
    }
  }

  /** Decoding the bytes of a string gives the string back: the lossy
      conversion loses nothing on well-formed input. */
  lemma {:induction false} DecodeEncode(s: string)
    ensures DecodeLossy(Encode(s)) == s
    decreases |s|
  {
    if |s| > 0 {
      var bs := Encode(s);
      StepEncodeChar(s[0], Encode(s[1..]));
      assert bs[|EncodeChar(s[0])|..] == Encode(s[1..]);
      DecodeEncode(s[1..]);
      assert [s[0]] + s[1..] == s;
    }
  }

  /** An ASCII string is one byte per character. */
  lemma {:induction false} EncodeAscii(s: string)
    requires forall c | c in s :: c as int < 0x80
    ensures |Encode(s)| == |s|
    decreases |s|
  {
    if |s| > 0 {
      assert s[0] in s;
      assert forall c | c in s[1..] :: c in s;
      EncodeAscii(s[1..]);
    }
  }
}
