/** UTF-8 as the Rust `str` type guarantees it: a byte string is text exactly when
    it is the encoding of a sequence of Unicode scalar values. */
module Utf8 {
  import opened Prelude
  import opened Bytes

  function EncodeChar(c: char): (bytes: seq<Byte>)
    ensures 1 <= |bytes| <= 4
    ensures c < 128 as char ==> bytes == [c as int]
  {
    var n := c as int;
    if n < 0x80 then [n]
    else if n < 0x800 then [0xC0 + n / 64, 0x80 + n % 64]
    else if n < 0x1_0000 then [0xE0 + n / 4096, 0x80 + n / 64 % 64, 0x80 + n % 64]
    else [0xF0 + n / 0x4_0000, 0x80 + n / 4096 % 64, 0x80 + n / 64 % 64, 0x80 + n % 64]
  }

  function Encode(text: string): (bytes: seq<Byte>)
    ensures |text| <= |bytes| <= 4 * |text|
  {
    if text == [] then [] else EncodeChar(text[0]) + Encode(text[1..])
  }

  function Width(lead: Byte): nat {
    if lead < 0x80 then 1 else if lead < 0xE0 then 2 else if lead < 0xF0 then 3 else 4
  }

  function CodePoint(bytes: seq<Byte>): int {
    if |bytes| == 1 then bytes[0]
    else if |bytes| == 2 then (bytes[0] as int - 0xC0) * 64 + (bytes[1] as int - 0x80)
    else if |bytes| == 3 then (bytes[0] as int - 0xE0) * 4096 + (bytes[1] as int - 0x80) * 64 + (bytes[2] as int - 0x80)
    else if |bytes| == 4 then
      (bytes[0] as int - 0xF0) * 0x4_0000 + (bytes[1] as int - 0x80) * 4096
      + (bytes[2] as int - 0x80) * 64 + (bytes[3] as int - 0x80)
    else -1
  }

  lemma DigitsBase64(n: nat)
    ensures n == n / 64 * 64 + n % 64
    ensures n == n / 4096 * 4096 + n / 64 % 64 * 64 + n % 64
    ensures n == n / 0x4_0000 * 0x4_0000 + n / 4096 % 64 * 4096 + n / 64 % 64 * 64 + n % 64
  {
    assert n / 64 / 64 == n / 4096;
    assert n / 4096 / 64 == n / 0x4_0000;
  }

  /** The leading byte fixes the width of a character, and its bytes fix the character. */
  lemma BytesFixTheChar(c: char)
    ensures |EncodeChar(c)| == Width(EncodeChar(c)[0])
    ensures CodePoint(EncodeChar(c)) == c as int
  {
    DigitsBase64(c as int);
  }

  lemma CharsArePrefixFree(a: char, b: char, x: seq<Byte>, y: seq<Byte>)
    requires EncodeChar(a) + x == EncodeChar(b) + y
    ensures a == b && x == y
  {
    BytesFixTheChar(a);
    BytesFixTheChar(b);
    SplitsAlike(EncodeChar(a), x, EncodeChar(b), y);
  }

  lemma SplitsAlike(p: seq<Byte>, x: seq<Byte>, q: seq<Byte>, y: seq<Byte>)
    requires p != [] && q != [] && p + x == q + y && |p| == Width(p[0]) && |q| == Width(q[0])
    ensures p == q && x == y
  {
    assert p[0] == (p + x)[0] && q[0] == (q + y)[0];
    assert p == (p + x)[..|p|] && q == (q + y)[..|q|];
    assert x == (p + x)[|p|..] && y == (q + y)[|q|..];
  }

  /** Different texts have different encodings, so decoding is a function. */
  lemma {:induction false} EncodeIsInjective(a: string, b: string)
    requires Encode(a) == Encode(b)
    ensures a == b
  {
    if a != [] && b != [] {
      CharsArePrefixFree(a[0], b[0], Encode(a[1..]), Encode(b[1..]));
      EncodeIsInjective(a[1..], b[1..]);
      assert a == [a[0]] + a[1..] && b == [b[0]] + b[1..];
    }
  }

  /** `std::str::from_utf8`. */
  ghost function Decode(bytes: seq<Byte>): Option<string> {
    if t: string :| Encode(t) == bytes then Some(t) else None
  }

  lemma DecodeInvertsEncode(text: string)
    ensures Decode(Encode(text)) == Some(text)
  {
    var t :| Decode(Encode(text)) == Some(t) && Encode(t) == Encode(text);
    EncodeIsInjective(t, text);
  }

  lemma {:induction false} ConcatLength(a: string, b: string)
    ensures |Encode(a + b)| == |Encode(a)| + |Encode(b)|
  {
    if a == [] {
      assert a + b == b;
    } else {
      ConcatLength(a[1..], b);
      assert (a + b)[1..] == a[1..] + b;
    }
  }

  lemma {:induction false} AsciiLength(text: string)
    requires forall i :: 0 <= i < |text| ==> text[i] < 128 as char
    ensures |Encode(text)| == |text|
  {
    if text != [] {
      AsciiLength(text[1..]);
      assert |EncodeChar(text[0])| == 1;
    }
  }
}
