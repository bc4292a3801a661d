/** The share URI (core/src/tunnel/join_uri.rs): a strict binary payload in
    base64url behind `sculk://join/v1/`. */
module JoinUri {
  import opened Prelude
  import opened Bytes
  import Base64Url
  import Utf8

  const FLAG_RELAY: Byte := 1
  const PAYLOAD_BASE_LEN: nat := 1 + 32 + 16 + 32
  const URI_LEN_MAX: nat := 512
  const RELAY_LEN_MAX: nat := 255
  const PREFIX: string := "sculk://join/v1/"
  const PATH: string := "/v1/"

  /** A relay is known by the bytes of its URL text. */
  datatype JoinUri = JoinUri(endpoint: EndpointKey, serviceId: ServiceId, token: Token, relay: Option<seq<Byte>>)

  datatype Error =
    | UrlParse | InvalidStructure | UnsupportedVersion | InvalidPayload | PayloadTooLong | UnsupportedFlags
    | RelayUrlParse

  datatype Url = Url(
    scheme: string, host: Option<string>, port: Option<nat>, username: string, password: Option<string>,
    query: Option<string>, fragment: Option<string>, path: string)

  /** What the original takes from other libraries: general URL parsing, the test
      for a valid endpoint key, UTF-8 validity, and relay URL parsing, which gives
      back the text of the parsed URL. */
  datatype Foreign = Foreign(
    parseUrl: string -> Option<Url>,
    isEndpoint: EndpointKey -> bool,
    isUtf8: seq<Byte> -> bool,
    parseRelay: seq<Byte> -> Option<seq<Byte>>)

  function Payload(uri: JoinUri): seq<Byte>
    requires uri.relay.Some? ==> |uri.relay.value| <= RELAY_LEN_MAX
  {
    [if uri.relay.Some? then FLAG_RELAY else 0] + uri.endpoint + uri.serviceId + uri.token
    + (if uri.relay.Some? then [|uri.relay.value| as Byte] + uri.relay.value else [])
  }

  function Expose(uri: JoinUri): Result<string, Error> {
    if uri.relay.Some? && |uri.relay.value| > RELAY_LEN_MAX then Err(PayloadTooLong)
    else
      var text := PREFIX + Base64Url.Encode(Payload(uri));
      if |Utf8.Encode(text)| > URI_LEN_MAX then Err(PayloadTooLong) else Ok(text)
  }

  /** `expose_secret_uri`, which fills a growing buffer. */
  method ExposeSecretUri(uri: JoinUri) returns (result: Result<string, Error>)
    ensures result == Expose(uri)
  {
    var flags: Byte := 0;
    if uri.relay.Some? {
      flags := FLAG_RELAY;
    }
    var payload: seq<Byte> := [flags];
    payload := payload + uri.endpoint;
    payload := payload + uri.serviceId;
    payload := payload + uri.token;
    if uri.relay.Some? {
      var relay := uri.relay.value;
      if |relay| > RELAY_LEN_MAX {
        return Err(PayloadTooLong);
      }
      payload := payload + [|relay| as Byte];
      payload := payload + relay;
    }
    assert payload == Payload(uri);
    var text := PREFIX + Base64Url.Encode(payload);
    if |Utf8.Encode(text)| > URI_LEN_MAX {
      return Err(PayloadTooLong);
    }
    result := Ok(text);
  }

  predicate IsShareUrl(url: Url) {
    && url.scheme == "sculk" && url.host == Some("join")
    && url.port.None? && url.username == "" && url.password.None? && url.query.None? && url.fragment.None?
  }

  function ParsePayload(f: Foreign, payload: seq<Byte>): Result<JoinUri, Error> {
    if |payload| < PAYLOAD_BASE_LEN then Err(InvalidPayload)
    else if payload[0] / 2 != 0 then Err(UnsupportedFlags)
    else if !f.isEndpoint(payload[1..33]) then Err(InvalidPayload)
    else if payload[0] % 2 == 0 then
      if |payload| != PAYLOAD_BASE_LEN then Err(InvalidPayload)
      else Ok(JoinUri(payload[1..33], payload[33..49], payload[49..81], None))
    else if |payload| <= PAYLOAD_BASE_LEN then Err(InvalidPayload)
    else
      var length := payload[PAYLOAD_BASE_LEN];
      if length == 0 || |payload| != PAYLOAD_BASE_LEN + 1 + length then Err(InvalidPayload)
      else
        var text := payload[PAYLOAD_BASE_LEN + 1..];
        if !f.isUtf8(text) then Err(InvalidPayload)
        else
          var relay := f.parseRelay(text);
          if relay.None? then Err(RelayUrlParse)
          else Ok(JoinUri(payload[1..33], payload[33..49], payload[49..81], relay))
  }

  /** `FromStr for JoinUri`. */
  function Parse(f: Foreign, value: string): Result<JoinUri, Error> {
    if |Utf8.Encode(value)| > URI_LEN_MAX then Err(PayloadTooLong)
    else
      var url := f.parseUrl(value);
      if url.None? then Err(UrlParse)
      else if !IsShareUrl(url.value) then Err(InvalidStructure)
      else if !(PATH <= url.value.path) then Err(UnsupportedVersion)
      else
        var encoded := url.value.path[|PATH|..];
        if encoded == "" || '/' in encoded then Err(InvalidStructure)
        else
          var payload := Base64Url.Decode(encoded);
          if payload.None? then Err(InvalidPayload) else ParsePayload(f, payload.value)
  }

  // ----- exporting

  lemma TextSize(payload: seq<Byte>)
    ensures var text := PREFIX + Base64Url.Encode(payload);
            |Utf8.Encode(text)| == |text| == 16 + (4 * |payload| + 2) / 3
  {
    var encoded := Base64Url.Encode(payload);
    var text := PREFIX + encoded;
    Base64Url.EncodedText(payload);
    forall i | 0 <= i < |text| ensures text[i] < 128 as char {
      if i >= |PREFIX| {
        assert text[i] == encoded[i - |PREFIX|] && encoded[i - |PREFIX|] in encoded;
      }
    }
    Utf8.AsciiLength(text);
  }

  /** A value exports exactly when its relay text has at most 255 bytes. The text
      has 124 characters without a relay and never more than 466, so the 512-byte cap
      refuses nothing. */
  lemma ExportsExactly(uri: JoinUri)
    ensures Expose(uri).Ok? <==> uri.relay.None? || |uri.relay.value| <= 255
    ensures Expose(uri).Ok? ==> |Expose(uri).value| <= 466
    ensures uri.relay.None? ==> |Expose(uri).value| == 124
  {
    if uri.relay.None? || |uri.relay.value| <= 255 {
      TextSize(Payload(uri));
    }
  }

  // ----- round trips

  lemma PayloadFields(uri: JoinUri)
    requires uri.relay.Some? ==> |uri.relay.value| <= RELAY_LEN_MAX
    ensures var payload := Payload(uri);
            && payload[0] == (if uri.relay.Some? then 1 else 0)
            && payload[1..33] == uri.endpoint && payload[33..49] == uri.serviceId && payload[49..81] == uri.token
            && (uri.relay.None? ==> |payload| == 81)
            && (uri.relay.Some? ==> |payload| == 82 + |uri.relay.value|
                                    && payload[81] == |uri.relay.value| && payload[82..] == uri.relay.value)
  {
  }

  /** The relay texts that survive: of 1 to 255 bytes, valid, and parsing to themselves. */
  predicate RelaySurvives(f: Foreign, relay: Option<seq<Byte>>) {
    relay.Some? ==> |relay.value| != 0 && f.isUtf8(relay.value) && f.parseRelay(relay.value) == relay
  }

  lemma PayloadRoundTrip(f: Foreign, uri: JoinUri)
    requires uri.relay.Some? ==> |uri.relay.value| <= RELAY_LEN_MAX
    ensures ParsePayload(f, Payload(uri)) == Ok(uri) <==> f.isEndpoint(uri.endpoint) && RelaySurvives(f, uri.relay)
  {
    PayloadFields(uri);
  }

  /** No accepted payload has a second form: parsing and rebuilding gives the same
      bytes back exactly when the relay text was already in the form the URL parser
      gives it. */
  lemma AcceptedPayloadRebuilds(f: Foreign, payload: seq<Byte>)
    requires ParsePayload(f, payload).Ok?
    requires var relay := ParsePayload(f, payload).value.relay;
             relay.Some? ==> |relay.value| <= RELAY_LEN_MAX
    ensures var uri := ParsePayload(f, payload).value;
            Payload(uri) == payload <==> uri.relay.None? || uri.relay.value == payload[82..]
  {
    var uri := ParsePayload(f, payload).value;
    PayloadFields(uri);
    assert payload[..81] == [payload[0]] + payload[1..33] + payload[33..49] + payload[49..81];
    if uri.relay.None? {
      assert payload[..81] == payload;
    } else {
      assert payload == payload[..81] + [payload[81]] + payload[82..];
    }
  }

  /** The payload spells the value: its fields in order after the flag, and the relay, if
      any, as a text of 1 to 255 bytes that parses to the relay of the value. */
  predicate Spells(f: Foreign, payload: seq<Byte>, uri: JoinUri, text: Option<seq<Byte>>) {
    && (text.Some? ==> 1 <= |text.value| <= 255 && f.isUtf8(text.value) && f.parseRelay(text.value).Some?)
    && payload == Payload(uri.(relay := text))
    && f.isEndpoint(uri.endpoint)
    && uri.relay == if text.Some? then f.parseRelay(text.value) else None
  }

  function RelayText(payload: seq<Byte>): Option<seq<Byte>> {
    if |payload| <= 82 then None else Some(payload[82..])
  }

  lemma AcceptedIsSpelled(f: Foreign, payload: seq<Byte>)
    requires ParsePayload(f, payload).Ok?
    ensures Spells(f, payload, ParsePayload(f, payload).value, RelayText(payload))
  {
    var uri := ParsePayload(f, payload).value.(relay := RelayText(payload));
    PayloadFields(uri);
    assert payload[..81] == [payload[0]] + payload[1..33] + payload[33..49] + payload[49..81];
    if uri.relay.None? {
      assert payload[..81] == payload;
    } else {
      assert payload == payload[..81] + [payload[81]] + payload[82..];
    }
  }

  /** A payload is read as a value exactly when it spells it. */
  lemma PayloadsParseExactly(f: Foreign, payload: seq<Byte>, uri: JoinUri)
    ensures ParsePayload(f, payload) == Ok(uri) <==> exists text :: Spells(f, payload, uri, text)
  {
    if ParsePayload(f, payload) == Ok(uri) {
      AcceptedIsSpelled(f, payload);
    }
    if text :| Spells(f, payload, uri, text) {
      PayloadFields(uri.(relay := text));
    }
  }

  /** The reasons a payload is refused for. */
  lemma PayloadsAreRefusedExactly(f: Foreign, payload: seq<Byte>)
    ensures ParsePayload(f, payload) == Err(UnsupportedFlags) <==> |payload| >= 81 && payload[0] >= 2
    ensures ParsePayload(f, payload) == Err(RelayUrlParse) <==>
            exists uri: JoinUri ::
              && uri.relay.Some? && 1 <= |uri.relay.value| <= 255 && payload == Payload(uri)
              && f.isEndpoint(uri.endpoint) && f.isUtf8(uri.relay.value) && f.parseRelay(uri.relay.value).None?
    ensures ParsePayload(f, payload).Err? ==>
              ParsePayload(f, payload).error in {UnsupportedFlags, RelayUrlParse, InvalidPayload}
  {
    if ParsePayload(f, payload) == Err(RelayUrlParse) {
      var uri := JoinUri(payload[1..33], payload[33..49], payload[49..81], Some(payload[82..]));
      assert payload[..81] == [payload[0]] + payload[1..33] + payload[33..49] + payload[49..81];
      assert payload == payload[..81] + [payload[81]] + payload[82..];
      assert payload == Payload(uri);
    }
    if uri: JoinUri :|
      && uri.relay.Some? && 1 <= |uri.relay.value| <= 255 && payload == Payload(uri)
      && f.isEndpoint(uri.endpoint) && f.isUtf8(uri.relay.value) && f.parseRelay(uri.relay.value).None?
    {
      PayloadFields(uri);
    }
  }

  function ShareUrl(encoded: string): Url {
    Url("sculk", Some("join"), None, "", None, None, None, "/v1/" + encoded)
  }

  lemma ParseOfUrl(f: Foreign, value: string, payload: seq<Byte>)
    requires |Utf8.Encode(value)| <= URI_LEN_MAX && payload != []
    requires f.parseUrl(value) == Some(ShareUrl(Base64Url.Encode(payload)))
    ensures Parse(f, value) == ParsePayload(f, payload)
  {
    var encoded := Base64Url.Encode(payload);
    Base64Url.EncodedText(payload);
    Base64Url.CodecIsExact(payload, encoded);
    assert !Base64Url.InAlphabet('/');
    assert (PATH + encoded)[|PATH|..] == encoded;
  }

  lemma AcceptedUrl(f: Foreign, value: string) returns (payload: seq<Byte>)
    requires Parse(f, value).Ok?
    ensures |Utf8.Encode(value)| <= URI_LEN_MAX && payload != []
    ensures f.parseUrl(value) == Some(ShareUrl(Base64Url.Encode(payload)))
    ensures Parse(f, value) == ParsePayload(f, payload)
  {
    var url := f.parseUrl(value).value;
    var encoded := url.path[|PATH|..];
    payload := Base64Url.Decode(encoded).value;
    Base64Url.CodecIsExact(payload, encoded);
    assert url.path == "/v1/" + encoded;
  }

  /** A text is read as a value exactly when it has at most 512 bytes and is a bare
      sculk://join URL with the path /v1/ and the base64url of a payload that spells it. */
  lemma ParsesExactly(f: Foreign, value: string, uri: JoinUri)
    ensures Parse(f, value) == Ok(uri) <==>
            && |Utf8.Encode(value)| <= 512
            && exists payload, text ::
                 && payload != [] && Spells(f, payload, uri, text)
                 && f.parseUrl(value) == Some(ShareUrl(Base64Url.Encode(payload)))
  {
    if Parse(f, value) == Ok(uri) {
      var payload := AcceptedUrl(f, value);
      AcceptedIsSpelled(f, payload);
    }
    if payload, text :|
      && |Utf8.Encode(value)| <= 512 && payload != [] && Spells(f, payload, uri, text)
      && f.parseUrl(value) == Some(ShareUrl(Base64Url.Encode(payload)))
    {
      ParseOfUrl(f, value, payload);
      PayloadsParseExactly(f, payload, uri);
    }
  }

  /** The reasons a text is refused for before its payload is looked at, in order. */
  lemma TextsAreRefusedExactly(f: Foreign, value: string)
    ensures Parse(f, value) == Err(PayloadTooLong) <==> |Utf8.Encode(value)| > 512
    ensures |Utf8.Encode(value)| <= 512 ==> (Parse(f, value) == Err(UrlParse) <==> f.parseUrl(value).None?)
    ensures |Utf8.Encode(value)| <= 512 && f.parseUrl(value).Some? ==>
              var url := f.parseUrl(value).value;
              var bare := url == Url("sculk", Some("join"), None, "", None, None, None, url.path);
              && (Parse(f, value) == Err(UnsupportedVersion) <==> bare && !("/v1/" <= url.path))
              && (Parse(f, value) == Err(InvalidStructure) <==>
                    !bare || ("/v1/" <= url.path && (url.path == "/v1/" || '/' in url.path[4..])))
  {
    if |Utf8.Encode(value)| <= 512 && f.parseUrl(value).Some? {
      var path := f.parseUrl(value).value.path;
      if PATH <= path && path[4..] == "" {
        assert path == PATH;
      }
    }
  }

  /** The URL parser reads the literal prefix followed by base64url text as written. */
  ghost predicate ReadsPrefixLiterally(f: Foreign) {
    forall encoded: string :: encoded != "" && (forall c <- encoded :: Base64Url.InAlphabet(c)) ==>
      f.parseUrl(PREFIX + encoded) == Some(ShareUrl(encoded))
  }

  lemma ParseOfText(f: Foreign, payload: seq<Byte>)
    requires ReadsPrefixLiterally(f) && 0 < |payload| <= 82 + RELAY_LEN_MAX
    ensures Parse(f, PREFIX + Base64Url.Encode(payload)) == ParsePayload(f, payload)
  {
    Base64Url.EncodedText(payload);
    TextSize(payload);
    ParseOfUrl(f, PREFIX + Base64Url.Encode(payload), payload);
  }

  /** Sharing works for every value: parsing the exported text gives the value back
      exactly when its key is valid and its relay text survives the URL parser. */
  lemma ShareRoundTrip(f: Foreign, uri: JoinUri)
    requires ReadsPrefixLiterally(f) && Expose(uri).Ok?
    ensures Parse(f, Expose(uri).value) == Ok(uri) <==> f.isEndpoint(uri.endpoint) && RelaySurvives(f, uri.relay)
  {
    ExportsExactly(uri);
    PayloadFields(uri);
    ParseOfText(f, Payload(uri));
    PayloadRoundTrip(f, uri);
  }

  /** Every accepted text is the one its value exports, up to what the URL layer
      normalised: the base64url part re-encodes to itself exactly when the relay
      text was already in the URL parser's form. */
  lemma AcceptedTextReencodes(f: Foreign, value: string)
    requires Parse(f, value).Ok?
    ensures var uri := Parse(f, value).value;
            var encoded := f.parseUrl(value).value.path[|PATH|..];
            var payload := Base64Url.Decode(encoded).value;
            Expose(uri) == Ok(PREFIX + encoded) <==> uri.relay.None? || uri.relay.value == payload[82..]
  {
    var uri := Parse(f, value).value;
    var encoded := f.parseUrl(value).value.path[|PATH|..];
    var payload := Base64Url.Decode(encoded).value;
    ExportsExactly(uri);
    if uri.relay.None? || |uri.relay.value| <= RELAY_LEN_MAX {
      AcceptedPayloadRebuilds(f, payload);
      Base64Url.CodecIsExact(payload, encoded);
      Base64Url.CodecIsExact(Payload(uri), Base64Url.Encode(Payload(uri)));
      assert (PREFIX + encoded)[|PREFIX|..] == encoded;
      assert (PREFIX + Base64Url.Encode(Payload(uri)))[|PREFIX|..] == Base64Url.Encode(Payload(uri));
    }
  }
}
