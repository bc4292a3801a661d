/** The LAN advertisement of Minecraft Java Edition (core/src/minecraft/lan.rs). */
module LanPacket {
  import opened Prelude
  import opened Bytes
  import Utf8

  const MOTD_CHARS_MAX := 64
  const MOTD_FALLBACK := "sculk"
  const SCAN_PACKET_SIZE_MAX := 8 * 1024

  // ----- names

  /** General category Cc. */
  predicate IsControl(c: char) {
    c as int < 0x20 || 0x7F <= c as int < 0xA0
  }

  /** The property White_Space. */
  predicate IsWhite(c: char) {
    var n := c as int;
    || 0x9 <= n <= 0xD || n == 0x20 || n == 0x85 || n == 0xA0 || n == 0x1680 || 0x2000 <= n <= 0x200A
    || n == 0x2028 || n == 0x2029 || n == 0x202F || n == 0x205F || n == 0x3000
  }

  function Cleaned(name: string): (r: string)
    ensures |r| == |name|
  {
    if name == [] then []
    else [if name[0] == '[' || name[0] == ']' || IsControl(name[0]) then ' ' else name[0]] + Cleaned(name[1..])
  }

  /** How many characters precede the first white one. */
  function WordLength(text: string): (n: nat)
    ensures n <= |text|
    ensures forall i :: 0 <= i < n ==> !IsWhite(text[i])
    ensures n < |text| ==> IsWhite(text[n])
  {
    if text == [] || IsWhite(text[0]) then 0 else 1 + WordLength(text[1..])
  }

  /** `split_whitespace`. */
  function Words(text: string): seq<string> {
    if text == [] then []
    else if IsWhite(text[0]) then Words(text[1..])
    else
      assert WordLength(text) >= 1;
      [text[..WordLength(text)]] + Words(text[WordLength(text)..])
  }

  function Join(words: seq<string>): string {
    if words == [] then ""
    else if |words| == 1 then words[0]
    else words[0] + " " + Join(words[1..])
  }

  function Sanitize(name: string): string {
    var text := Join(Words(Cleaned(name[..Min(|name|, MOTD_CHARS_MAX)])));
    if text == [] then MOTD_FALLBACK else text
  }

  predicate IsPlain(c: char) {
    c != '[' && c != ']' && !IsControl(c) && (IsWhite(c) ==> c == ' ')
  }

  predicate IsWord(word: string) {
    word != [] && forall i :: 0 <= i < |word| ==> IsPlain(word[i]) && !IsWhite(word[i])
  }

  /** Words of plain characters with single spaces between them. */
  predicate IsSpaced(text: string) {
    && (forall i :: 0 <= i < |text| ==> IsPlain(text[i]))
    && (text != [] ==> text[0] != ' ' && Last(text) != ' ')
    && (forall i :: 0 <= i < |text| - 1 ==> !(text[i] == ' ' && text[i + 1] == ' '))
  }

  lemma {:induction false} CleanedIsPlain(name: string)
    ensures forall i :: 0 <= i < |name| ==> !IsWhite(Cleaned(name)[i]) ==> IsPlain(Cleaned(name)[i])
    ensures (forall i :: 0 <= i < |name| ==> IsPlain(name[i])) ==> Cleaned(name) == name
  {
    if name != [] {
      CleanedIsPlain(name[1..]);
      assert forall i :: 1 <= i < |name| ==> Cleaned(name)[i] == Cleaned(name[1..])[i - 1] && name[i] == name[1..][i - 1];
    }
  }

  /** Brackets and controls become spaces; nothing else changes. */
  lemma {:induction false} CleanedExactly(name: string, i: nat)
    requires i < |name|
    ensures Cleaned(name)[i] == if name[i] in "[]" || IsControl(name[i]) then ' ' else name[i]
  {
    if i > 0 {
      CleanedExactly(name[1..], i - 1);
    }
  }

  function NonWhite(text: string): string {
    if text == [] then [] else (if IsWhite(text[0]) then [] else [text[0]]) + NonWhite(text[1..])
  }

  function Flatten(words: seq<string>): string {
    if words == [] then [] else words[0] + Flatten(words[1..])
  }

  lemma {:induction false} NonWhiteOfWord(text: string, n: nat)
    requires n <= |text| && forall i :: 0 <= i < n ==> !IsWhite(text[i])
    ensures NonWhite(text) == text[..n] + NonWhite(text[n..])
  {
    if n > 0 {
      NonWhiteOfWord(text[1..], n - 1);
      assert text[1..][..n - 1] == text[1..n];
      assert text[1..][n - 1..] == text[n..];
      assert text[..n] == [text[0]] + text[1..n];
    } else {
      assert text[..0] + NonWhite(text[0..]) == NonWhite(text);
    }
  }

  /** The words are all of the text but its white characters, in order. */
  lemma {:induction false} WordsKeepEverything(text: string)
    ensures Flatten(Words(text)) == NonWhite(text)
    decreases |text|
  {
    if text != [] {
      if IsWhite(text[0]) {
        WordsKeepEverything(text[1..]);
      } else {
        var n := WordLength(text);
        WordsKeepEverything(text[n..]);
        NonWhiteOfWord(text, n);
      }
    }
  }

  lemma {:induction false} WordsAreWords(text: string)
    requires forall i :: 0 <= i < |text| ==> !IsWhite(text[i]) ==> IsPlain(text[i])
    ensures forall w :: 0 <= w < |Words(text)| ==> IsWord(Words(text)[w])
    ensures |Join(Words(text))| <= |text|
    decreases |text|
  {
    if text != [] {
      if IsWhite(text[0]) {
        WordsAreWords(text[1..]);
      } else {
        var n := WordLength(text);
        var rest := text[n..];
        WordsAreWords(rest);
        if Words(rest) != [] {
          assert IsWhite(rest[0]);
          WordsAreWords(rest[1..]);
        }
      }
    }
  }

  lemma {:induction false} JoinIsSpaced(words: seq<string>)
    requires forall w :: 0 <= w < |words| ==> IsWord(words[w])
    ensures IsSpaced(Join(words))
    ensures words != [] ==> Join(words) != []
  {
    if |words| > 1 {
      JoinIsSpaced(words[1..]);
      var rest := Join(words[1..]);
      var text := Join(words);
      assert text == words[0] + " " + rest;
      assert forall i :: 0 <= i < |words[0]| ==> text[i] == words[0][i];
      assert text[|words[0]|] == ' ';
      assert forall i :: |words[0]| < i < |text| ==> text[i] == rest[i - |words[0]| - 1];
    }
  }

  /** Splitting joined words gives them back. */
  lemma {:induction false} WordsOfJoin(words: seq<string>)
    requires forall w :: 0 <= w < |words| ==> IsWord(words[w])
    ensures Words(Join(words)) == words
  {
    if words != [] {
      var text := Join(words);
      var n := |words[0]|;
      assert text[..n] == words[0];
      WordLengthIs(text, n);
      if |words| > 1 {
        assert text[n..] == " " + Join(words[1..]);
        assert text[n..][1..] == Join(words[1..]);
        WordsOfJoin(words[1..]);
      } else {
        assert words == [words[0]];
      }
    }
  }

  lemma {:induction false} WordLengthIs(text: string, n: nat)
    requires n <= |text| && (forall i :: 0 <= i < n ==> !IsWhite(text[i])) && (n < |text| ==> IsWhite(text[n]))
    ensures WordLength(text) == n
  {
    if n > 0 {
      WordLengthIs(text[1..], n - 1);
    }
  }

  /** A sanitized name has 1 to 64 characters, no brackets, no controls and only single
      inner spaces; it keeps the words of the name, and sanitizing it again changes nothing. */
  lemma SanitizedName(name: string)
    ensures var s := Sanitize(name);
            var words := Words(Cleaned(name[..Min(|name|, MOTD_CHARS_MAX)]));
            && 1 <= |s| <= MOTD_CHARS_MAX && IsSpaced(s) && Sanitize(s) == s
            && Words(s) == if words == [] then [MOTD_FALLBACK] else words
  {
    var taken := name[..Min(|name|, MOTD_CHARS_MAX)];
    CleanedIsPlain(taken);
    var words := Words(Cleaned(taken));
    WordsAreWords(Cleaned(taken));
    JoinIsSpaced(words);
    var kept := if words == [] then [MOTD_FALLBACK] else words;
    assert IsWord(MOTD_FALLBACK);
    JoinIsSpaced(kept);
    WordsOfJoin(kept);
    var s := Sanitize(name);
    assert s == Join(kept);
    assert s[..Min(|s|, MOTD_CHARS_MAX)] == s;
    CleanedIsPlain(s);
  }

  // ----- ports

  predicate IsDigit(c: char) {
    '0' <= c <= '9'
  }

  predicate AllDigits(text: string) {
    forall i :: 0 <= i < |text| ==> IsDigit(text[i])
  }

  function DigitsValue(text: string): nat
    requires AllDigits(text)
  {
    if text == [] then 0
    else
      assert IsDigit(Last(text));
      10 * DigitsValue(text[..|text| - 1]) + (Last(text) as int - '0' as int)
  }

  /** `NonZeroU16::from_str`: an optional plus sign, then digits. */
  function ParsePort(text: string): Option<nat> {
    var digits := if text != [] && text[0] == '+' then text[1..] else text;
    if digits == [] || !AllDigits(digits) then None
    else if 1 <= DigitsValue(digits) <= U16_MAX then Some(DigitsValue(digits)) else None
  }

  ghost predicate SpellsPort(text: string, digits: string, port: nat) {
    && digits != [] && AllDigits(digits) && DigitsValue(digits) == port && 1 <= port <= 65535
    && (text == digits || text == "+" + digits)
  }

  /** A port is read exactly from one or more digits, perhaps after a plus sign, whose value
      is between 1 and 65535. */
  lemma PortsParseExactly(text: string, port: nat)
    ensures ParsePort(text) == Some(port) <==> exists digits :: SpellsPort(text, digits, port)
  {
    if ParsePort(text) == Some(port) {
      var digits := if text[0] == '+' then text[1..] else text;
      assert text[0] == '+' ==> text == "+" + text[1..];
      assert SpellsPort(text, digits, port);
    }
    if digits :| SpellsPort(text, digits, port) {
      assert IsDigit(digits[0]);
      assert text == "+" + digits ==> text[1..] == digits;
    }
  }

  function ToDecimal(n: nat): (text: string)
    ensures AllDigits(text) && DigitsValue(text) == n
    ensures |text| >= 1
    ensures n < 10 ==> |text| == 1
  {
    if n < 10 then [('0' as int + n) as char]
    else
      var front := ToDecimal(n / 10);
      var last := ('0' as int + n % 10) as char;
      assert (front + [last])[..|front|] == front;
      front + [last]
  }

  lemma DecimalWidth(n: nat)
    requires n <= U16_MAX
    ensures |ToDecimal(n)| <= 5
  {
    var a, b, c := n / 10, n / 10 / 10, n / 10 / 10 / 10;
    assert n < 10 || |ToDecimal(n)| == |ToDecimal(a)| + 1;
    assert a < 10 || |ToDecimal(a)| == |ToDecimal(b)| + 1;
    assert b < 10 || |ToDecimal(b)| == |ToDecimal(c)| + 1;
    assert c < 10 || |ToDecimal(c)| == |ToDecimal(c / 10)| + 1;
    assert c / 10 < 10;
  }

  // ----- packets

  const MOTD_OPEN := "[MOTD]"
  const MOTD_CLOSE := "[/MOTD]"
  const AD_OPEN := "[AD]"
  const AD_CLOSE := "[/AD]"

  predicate OccursAt(text: string, pattern: string, i: nat) {
    i + |pattern| <= |text| && text[i..i + |pattern|] == pattern
  }

  /** `str::find`: the first occurrence. */
  function Find(text: string, pattern: string): (r: Option<nat>)
    ensures r.Some? ==> OccursAt(text, pattern, r.value) && forall i: nat :: i < r.value ==> !OccursAt(text, pattern, i)
    ensures r.None? ==> forall i: nat :: !OccursAt(text, pattern, i)
  {
    FindFrom(text, pattern, 0)
  }

  function FindFrom(text: string, pattern: string, start: nat): (r: Option<nat>)
    requires start <= |text| && forall i: nat :: i < start ==> !OccursAt(text, pattern, i)
    ensures r.Some? ==> OccursAt(text, pattern, r.value) && forall i: nat :: i < r.value ==> !OccursAt(text, pattern, i)
    ensures r.None? ==> forall i: nat :: !OccursAt(text, pattern, i)
    decreases |text| - start
  {
    if OccursAt(text, pattern, start) then Some(start)
    else if start == |text| then None
    else FindFrom(text, pattern, start + 1)
  }

  function StripPrefix(text: string, prefix: string): Option<string> {
    if prefix <= text then Some(text[|prefix|..]) else None
  }

  function PacketText(motd: string, port: string): string {
    MOTD_OPEN + motd + MOTD_CLOSE + AD_OPEN + port + AD_CLOSE
  }

  function BuildPacket(name: string, port: nat): seq<Byte>
    requires 1 <= port <= U16_MAX
  {
    Utf8.Encode(PacketText(Sanitize(name), ToDecimal(port)))
  }

  function ParseText(text: string): Option<nat> {
    match StripPrefix(text, MOTD_OPEN)
    case None => None
    case Some(motd) =>
      match Find(motd, MOTD_CLOSE)
      case None => None
      case Some(end) =>
        match StripPrefix(motd[end + |MOTD_CLOSE|..], AD_OPEN)
        case None => None
        case Some(advertisement) =>
          match Find(advertisement, AD_CLOSE)
          case None => None
          case Some(portEnd) => ParsePort(advertisement[..portEnd])
  }

  ghost function ParseLanPort(packet: seq<Byte>): Option<nat> {
    match Utf8.Decode(packet)
    case None => None
    case Some(text) => ParseText(text)
  }

  /** The pattern, following `text`, starts nowhere before. */
  predicate EndsFirst(text: string, pattern: string) {
    forall i: nat :: i < |text| ==> !OccursAt(text + pattern, pattern, i)
  }

  lemma FindsTheEnd(text: string, pattern: string, tail: string)
    requires EndsFirst(text, pattern)
    ensures Find(text + pattern + tail, pattern) == Some(|text|)
  {
    var whole := text + pattern + tail;
    assert OccursAt(whole, pattern, |text|);
    forall i: nat | i < |text| ensures !OccursAt(whole, pattern, i) {
      assert !OccursAt(text + pattern, pattern, i);
      assert whole[i..i + |pattern|] == (text + pattern)[i..i + |pattern|];
    }
  }

  lemma Reassociate(a: string, b: string, c: string, d: string, e: string, f: string, g: string)
    ensures a + (b + c + (d + (e + f + g))) == a + b + c + d + e + f + g
  {
    assert b + c + (d + (e + f + g)) == b + c + d + e + f + g;
    assert a + (b + c + d + e + f + g) == a + b + c + d + e + f + g;
  }

  lemma Stripped(prefix: string, text: string)
    ensures StripPrefix(prefix + text, prefix) == Some(text)
  {
  }

  lemma Dropped(a: string, b: string, c: string)
    ensures (a + b + c)[|a| + |b|..] == c
  {
  }

  /** What the parser reads: the message up to its first closing tag, the port up to its
      first closing tag, and anything after. */
  lemma TextIsParsed(motd: string, digits: string, tail: string)
    requires EndsFirst(motd, MOTD_CLOSE) && EndsFirst(digits, AD_CLOSE)
    ensures ParseText(PacketText(motd, digits) + tail) == ParsePort(digits)
  {
    var advertisement := digits + AD_CLOSE + tail;
    var body := motd + MOTD_CLOSE + (AD_OPEN + advertisement);
    Reassociate(MOTD_OPEN, motd, MOTD_CLOSE, AD_OPEN, digits, AD_CLOSE, tail);
    Stripped(MOTD_OPEN, body);
    FindsTheEnd(motd, MOTD_CLOSE, AD_OPEN + advertisement);
    Dropped(motd, MOTD_CLOSE, AD_OPEN + advertisement);
    Stripped(AD_OPEN, advertisement);
    FindsTheEnd(digits, AD_CLOSE, tail);
    assert advertisement[..|digits|] == digits;
  }

  lemma BeforeTheFirst(text: string, pattern: string, i: nat)
    requires Find(text, pattern) == Some(i)
    ensures text == text[..i] + pattern + text[i + |pattern|..] && EndsFirst(text[..i], pattern)
  {
    assert text[..i] + pattern == text[..i + |pattern|];
    forall j: nat | j < i ensures !OccursAt(text[..i] + pattern, pattern, j) {
      assert !OccursAt(text, pattern, j);
      assert text[j..j + |pattern|] == text[..i + |pattern|][j..j + |pattern|];
    }
  }

  ghost predicate IsPacketText(text: string, motd: string, digits: string, tail: string) {
    text == PacketText(motd, digits) + tail && EndsFirst(motd, MOTD_CLOSE) && EndsFirst(digits, AD_CLOSE)
  }

  lemma ParsedTextSplits(text: string) returns (motd: string, digits: string, tail: string)
    requires ParseText(text).Some?
    ensures IsPacketText(text, motd, digits, tail)
  {
    var body := text[|MOTD_OPEN|..];
    var end := Find(body, MOTD_CLOSE).value;
    BeforeTheFirst(body, MOTD_CLOSE, end);
    var rest := body[end + |MOTD_CLOSE|..];
    var advertisement := rest[|AD_OPEN|..];
    var portEnd := Find(advertisement, AD_CLOSE).value;
    BeforeTheFirst(advertisement, AD_CLOSE, portEnd);
    motd, digits, tail := body[..end], advertisement[..portEnd], advertisement[portEnd + |AD_CLOSE|..];
    Reassociate(MOTD_OPEN, motd, MOTD_CLOSE, AD_OPEN, digits, AD_CLOSE, tail);
    assert text == MOTD_OPEN + body && rest == AD_OPEN + advertisement;
  }

  /** Exactly the accepted packets. */
  lemma AcceptedExactly(packet: seq<Byte>, port: nat)
    ensures ParseLanPort(packet) == Some(port) <==>
            exists motd, digits, tail ::
              && packet == Utf8.Encode(PacketText(motd, digits) + tail)
              && IsPacketText(PacketText(motd, digits) + tail, motd, digits, tail)
              && ParsePort(digits) == Some(port)
  {
    if ParseLanPort(packet) == Some(port) {
      var text := Utf8.Decode(packet).value;
      var motd, digits, tail := ParsedTextSplits(text);
      TextIsParsed(motd, digits, tail);
      assert packet == Utf8.Encode(PacketText(motd, digits) + tail);
    }
    if motd, digits, tail :|
      && packet == Utf8.Encode(PacketText(motd, digits) + tail)
      && IsPacketText(PacketText(motd, digits) + tail, motd, digits, tail)
      && ParsePort(digits) == Some(port)
    {
      Utf8.DecodeInvertsEncode(PacketText(motd, digits) + tail);
      TextIsParsed(motd, digits, tail);
    }
  }

  lemma NoBracketNoTag(text: string, pattern: string)
    requires pattern != [] && pattern[0] == '[' && forall i :: 0 <= i < |text| ==> text[i] != '['
    ensures EndsFirst(text, pattern)
  {
    forall i: nat | i < |text| ensures !OccursAt(text + pattern, pattern, i) {
      assert (text + pattern)[i] == text[i];
    }
  }

  /** For every name and non-zero port the built packet parses back to the port. */
  lemma BuiltPacketParses(name: string, port: nat)
    requires 1 <= port <= U16_MAX
    ensures ParseLanPort(BuildPacket(name, port)) == Some(port)
  {
    var motd, digits := Sanitize(name), ToDecimal(port);
    SanitizedName(name);
    assert IsDigit(digits[0]);
    NoBracketNoTag(motd, MOTD_CLOSE);
    NoBracketNoTag(digits, AD_CLOSE);
    Utf8.DecodeInvertsEncode(PacketText(motd, digits));
    TextIsParsed(motd, digits, "");
    assert PacketText(motd, digits) + "" == PacketText(motd, digits);
  }

  lemma EncodedLength(a: string, b: string, c: string, d: string, e: string, f: string)
    ensures |Utf8.Encode(a + b + c + d + e + f)|
            == |Utf8.Encode(a)| + |Utf8.Encode(b)| + |Utf8.Encode(c)| + |Utf8.Encode(d)| + |Utf8.Encode(e)|
               + |Utf8.Encode(f)|
  {
    Utf8.ConcatLength(a + b + c + d + e, f);
    Utf8.ConcatLength(a + b + c + d, e);
    Utf8.ConcatLength(a + b + c, d);
    Utf8.ConcatLength(a + b, c);
    Utf8.ConcatLength(a, b);
  }

  lemma TagsAreAscii()
    ensures |Utf8.Encode(MOTD_OPEN)| == 6 && |Utf8.Encode(MOTD_CLOSE)| == 7
    ensures |Utf8.Encode(AD_OPEN)| == 4 && |Utf8.Encode(AD_CLOSE)| == 5
  {
    Utf8.AsciiLength(MOTD_OPEN);
    Utf8.AsciiLength(MOTD_CLOSE);
    Utf8.AsciiLength(AD_OPEN);
    Utf8.AsciiLength(AD_CLOSE);
  }

  /** ... and fits in 283 bytes, well within the scan buffer. */
  lemma BuiltPacketIsShort(name: string, port: nat)
    requires 1 <= port <= U16_MAX
    ensures |BuildPacket(name, port)| <= 283 < SCAN_PACKET_SIZE_MAX
  {
    var motd, digits := Sanitize(name), ToDecimal(port);
    SanitizedName(name);
    DecimalWidth(port);
    EncodedLength(MOTD_OPEN, motd, MOTD_CLOSE, AD_OPEN, digits, AD_CLOSE);
    TagsAreAscii();
    Utf8.AsciiLength(digits);
  }
}
