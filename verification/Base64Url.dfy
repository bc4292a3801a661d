/** The base64url alphabet without padding and with canonical trailing bits
    (sections 3.2, 3.5 and 5 of RFC 4648), as the share URI uses it. */
module Base64Url {
  import opened Prelude
  import opened Bytes

  type Sextet = n: int | 0 <= n < 64

  // ----- the alphabet

  function SextetChar(n: Sextet): char {
    if n < 26 then 'A' + n as char
    else if n < 52 then 'a' + (n - 26) as char
    else if n < 62 then '0' + (n - 52) as char
    else if n == 62 then '-' else '_'
  }

  predicate InAlphabet(c: char) {
    'A' <= c <= 'Z' || 'a' <= c <= 'z' || '0' <= c <= '9' || c == '-' || c == '_'
  }

  function CharSextet(c: char): Sextet
    requires InAlphabet(c)
  {
    if 'A' <= c <= 'Z' then c as int - 'A' as int
    else if 'a' <= c <= 'z' then c as int - 'a' as int + 26
    else if '0' <= c <= '9' then c as int - '0' as int + 52
    else if c == '-' then 62 else 63
  }

  lemma SextetToChar(n: Sextet)
    ensures InAlphabet(SextetChar(n)) && CharSextet(SextetChar(n)) == n
  {
  }

  lemma CharToSextet(c: char)
    requires InAlphabet(c)
    ensures SextetChar(CharSextet(c)) == c
  {
  }

  function ToText(sextets: seq<Sextet>): string {
    seq(|sextets|, i requires 0 <= i < |sextets| => SextetChar(sextets[i]))
  }

  function FromText(text: string): Option<seq<Sextet>> {
    if forall c <- text :: InAlphabet(c)
    then Some(seq(|text|, i requires 0 <= i < |text| && InAlphabet(text[i]) => CharSextet(text[i])))
    else None
  }

  lemma TextRoundTrip(sextets: seq<Sextet>)
    ensures FromText(ToText(sextets)) == Some(sextets)
  {
    forall i | 0 <= i < |sextets|
      ensures InAlphabet(ToText(sextets)[i]) && CharSextet(ToText(sextets)[i]) == sextets[i]
    {
      SextetToChar(sextets[i]);
    }
    assert forall c <- ToText(sextets) :: InAlphabet(c);
    assert FromText(ToText(sextets)).value == sextets;
  }

  lemma SextetsRoundTrip(text: string)
    requires FromText(text).Some?
    ensures ToText(FromText(text).value) == text
  {
    forall i | 0 <= i < |text| ensures ToText(FromText(text).value)[i] == text[i] {
      CharToSextet(text[i]);
    }
  }

  // ----- regrouping bits

  function Split(bytes: seq<Byte>): seq<Sextet> {
    if bytes == [] then []
    else if |bytes| == 1 then [bytes[0] / 4, bytes[0] % 4 * 16]
    else if |bytes| == 2 then [bytes[0] / 4, bytes[0] % 4 * 16 + bytes[1] / 16, bytes[1] % 16 * 4]
    else [bytes[0] / 4, bytes[0] % 4 * 16 + bytes[1] / 16, bytes[1] % 16 * 4 + bytes[2] / 64, bytes[2] % 64]
         + Split(bytes[3..])
  }

  function Join(s: seq<Sextet>): Option<seq<Byte>> {
    if s == [] then Some([])
    else if |s| == 1 then None
    else if |s| == 2 then
      if s[1] % 16 != 0 then None else Some([s[0] as int * 4 + s[1] as int / 16])
    else if |s| == 3 then
      if s[2] % 4 != 0 then None else Some([s[0] as int * 4 + s[1] as int / 16, s[1] as int % 16 * 16 + s[2] as int / 4])
    else
      var rest := Join(s[4..]);
      if rest.None? then None
      else Some([s[0] as int * 4 + s[1] as int / 16, s[1] as int % 16 * 16 + s[2] as int / 4, s[2] as int % 4 * 64 + s[3] as int] + rest.value)
  }

  lemma GroupJoinsSplit(x: Byte, y: Byte, z: Byte)
    ensures x / 4 * 4 + (x % 4 * 16 + y / 16) / 16 == x
    ensures (x % 4 * 16 + y / 16) % 16 * 16 + (y % 16 * 4 + z / 64) / 4 == y
    ensures (y % 16 * 4 + z / 64) % 4 * 64 + z % 64 == z
  {
  }

  lemma GroupSplitsJoin(a: Sextet, b: Sextet, c: Sextet, d: Sextet)
    ensures var x, y, z := a as int * 4 + b / 16, b as int % 16 * 16 + c / 4, c as int % 4 * 64 + d;
            x / 4 == a && x % 4 * 16 + y / 16 == b && y % 16 * 4 + z / 64 == c && z % 64 == d
  {
  }

  lemma {:induction false} JoinInvertsSplit(bytes: seq<Byte>)
    ensures Join(Split(bytes)) == Some(bytes)
  {
    if |bytes| == 1 {
      GroupJoinsSplit(bytes[0], 0, 0);
      assert bytes == [bytes[0]];
    } else if |bytes| == 2 {
      GroupJoinsSplit(bytes[0], bytes[1], 0);
      assert bytes == [bytes[0], bytes[1]];
    } else if |bytes| >= 3 {
      GroupJoinsSplit(bytes[0], bytes[1], bytes[2]);
      JoinInvertsSplit(bytes[3..]);
      assert Split(bytes)[4..] == Split(bytes[3..]);
      assert bytes == [bytes[0], bytes[1], bytes[2]] + bytes[3..];
    }
  }

  lemma {:induction false} SplitInvertsJoin(s: seq<Sextet>)
    requires Join(s).Some?
    ensures Split(Join(s).value) == s
  {
    if |s| == 2 {
      GroupSplitsJoin(s[0], s[1], 0, 0);
    } else if |s| == 3 {
      GroupSplitsJoin(s[0], s[1], s[2], 0);
    } else if |s| >= 4 {
      GroupSplitsJoin(s[0], s[1], s[2], s[3]);
      SplitInvertsJoin(s[4..]);
      assert Join(s).value[3..] == Join(s[4..]).value;
      assert s == [s[0], s[1], s[2], s[3]] + s[4..];
    }
  }

  lemma {:induction false} SplitLength(bytes: seq<Byte>)
    ensures |Split(bytes)| == (4 * |bytes| + 2) / 3
  {
    if |bytes| >= 3 {
      SplitLength(bytes[3..]);
    }
  }

  // ----- the codec

  function Encode(bytes: seq<Byte>): string {
    ToText(Split(bytes))
  }

  function Decode(text: string): Option<seq<Byte>> {
    var sextets := FromText(text);
    if sextets.None? then None else Join(sextets.value)
  }

  /** Decoding and encoding are inverse in both directions: only canonical,
      unpadded text over the alphabet is accepted, and exactly one text per byte string. */
  lemma CodecIsExact(bytes: seq<Byte>, text: string)
    ensures Decode(text) == Some(bytes) <==> text == Encode(bytes)
  {
    TextRoundTrip(Split(bytes));
    JoinInvertsSplit(bytes);
    if Decode(text) == Some(bytes) {
      SextetsRoundTrip(text);
      SplitInvertsJoin(FromText(text).value);
    }
  }

  lemma EncodedText(bytes: seq<Byte>)
    ensures |Encode(bytes)| == (4 * |bytes| + 2) / 3
    ensures forall c <- Encode(bytes) :: InAlphabet(c)
  {
    SplitLength(bytes);
    TextRoundTrip(Split(bytes));
  }
}
