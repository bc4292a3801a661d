/** The 61-byte host state file (core/src/persist/host_state.rs). */
module HostState {
  import opened Prelude
  import opened Bytes
  import opened Clocks

  const STATE_VERSION: Byte := 1
  const STATE_LEN: nat := 1 + 16 + 32 + 8 + 4

  /** A token and the wall time it was created at. */
  datatype TokenState = TokenState(token: Token, createdAt: int)

  datatype StoredHost = StoredHost(serviceId: ServiceId, tokenState: TokenState)

  datatype Error =
    | InvalidLength(actual: nat)
    | UnsupportedVersion(version: Byte)
    | InvalidTimestamp

  /** The layout: version, service id, token, then seconds and nanoseconds. */
  function Layout(serviceId: ServiceId, token: Token, seconds: nat, nanos: nat): (bytes: seq<Byte>)
    ensures |bytes| == STATE_LEN
  {
    [STATE_VERSION] + serviceId + token + LittleEndian(8, seconds) + LittleEndian(4, nanos)
  }

  function Encode(state: StoredHost): Result<seq<Byte>, Error> {
    if state.tokenState.createdAt < 0 then Err(InvalidTimestamp)
    else Ok(Layout(state.serviceId, state.tokenState.token,
                   state.tokenState.createdAt / SECOND, state.tokenState.createdAt % SECOND))
  }

  function Decode(limits: Limits, bytes: seq<Byte>): Result<StoredHost, Error> {
    if |bytes| != STATE_LEN then Err(InvalidLength(|bytes|))
    else if bytes[0] != STATE_VERSION then Err(UnsupportedVersion(bytes[0]))
    else
      var seconds := FromLittleEndian(bytes[49..57]);
      var nanos := FromLittleEndian(bytes[57..61]);
      if nanos >= SECOND then Err(InvalidTimestamp)
      else
        var createdAt := CheckedAdd(0, seconds * SECOND + nanos, limits.wallMax);
        if createdAt.None? then Err(InvalidTimestamp)
        else Ok(StoredHost(bytes[1..17], TokenState(bytes[17..49], createdAt.value)))
  }

  /** `save_host_state` up to the file write: fills the buffer field by field. */
  method Serialize(state: StoredHost) returns (result: Result<seq<Byte>, Error>)
    ensures result == Encode(state)
  {
    var created := state.tokenState.createdAt;
    if created < 0 {
      return Err(InvalidTimestamp);
    }
    var buffer := new Byte[STATE_LEN](_ => 0);
    buffer[0] := STATE_VERSION;
    CopyInto(buffer, 1, state.serviceId);
    CopyInto(buffer, 17, state.tokenState.token);
    CopyInto(buffer, 49, LittleEndian(8, created / SECOND));
    assert buffer[..49] == [STATE_VERSION] + state.serviceId + state.tokenState.token;
    CopyInto(buffer, 57, LittleEndian(4, created % SECOND));
    assert buffer[..] == Layout(state.serviceId, state.tokenState.token, created / SECOND, created % SECOND);
    result := Ok(buffer[..]);
  }

  lemma LayoutFields(serviceId: ServiceId, token: Token, seconds: nat, nanos: nat)
    ensures var bytes := Layout(serviceId, token, seconds, nanos);
            && bytes[0] == STATE_VERSION && bytes[1..17] == serviceId && bytes[17..49] == token
            && bytes[49..57] == LittleEndian(8, seconds) && bytes[57..61] == LittleEndian(4, nanos)
  {
  }

  /** Every state whose creation time is representable and not before the epoch
      survives a save and a load; any earlier time is refused by the save. */
  lemma SaveThenLoad(limits: Limits, state: StoredHost)
    requires limits.wallMax <= DURATION_MAX && state.tokenState.createdAt <= limits.wallMax
    ensures Encode(state).Ok? <==> state.tokenState.createdAt >= 0
    ensures Encode(state).Ok? ==> |Encode(state).value| == 61 && Decode(limits, Encode(state).value) == Ok(state)
  {
    var created := state.tokenState.createdAt;
    if created >= 0 {
      LayoutFields(state.serviceId, state.tokenState.token, created / SECOND, created % SECOND);
      assert Pow256(4) == 0x1_0000_0000 && Pow256(8) == 0x1_0000_0000_0000_0000;
      LittleEndianRoundTrip(8, created / SECOND);
      LittleEndianRoundTrip(4, created % SECOND);
    }
  }

  /** Every accepted file is the one that saving its state writes: no second
      encoding of a state exists. */
  lemma LoadThenSave(limits: Limits, bytes: seq<Byte>)
    requires Decode(limits, bytes).Ok?
    ensures Encode(Decode(limits, bytes).value) == Ok(bytes)
  {
    var seconds := FromLittleEndian(bytes[49..57]);
    var nanos := FromLittleEndian(bytes[57..61]);
    FromLittleEndianRoundTrip(bytes[49..57]);
    FromLittleEndianRoundTrip(bytes[57..61]);
    var state := Decode(limits, bytes).value;
    assert state.tokenState.createdAt / SECOND == seconds && state.tokenState.createdAt % SECOND == nanos;
    assert bytes == [bytes[0]] + bytes[1..17] + bytes[17..49] + bytes[49..57] + bytes[57..61];
  }

  /** The files that load are exactly those of the right length and version whose
      timestamp is a proper, representable time. */
  lemma LoadsExactly(limits: Limits, bytes: seq<Byte>)
    ensures Decode(limits, bytes).Ok? <==>
              && |bytes| == 61 && bytes[0] == 1
              && FromLittleEndian(bytes[57..61]) < SECOND
              && FromLittleEndian(bytes[49..57]) * SECOND + FromLittleEndian(bytes[57..61]) <= limits.wallMax
    ensures |bytes| != 61 <==> Decode(limits, bytes) == Err(InvalidLength(|bytes|))
    ensures |bytes| == 61 ==> (bytes[0] != 1 <==> Decode(limits, bytes) == Err(UnsupportedVersion(bytes[0])))
    ensures Decode(limits, bytes).Err? && |bytes| == 61 && bytes[0] == 1 ==> Decode(limits, bytes) == Err(InvalidTimestamp)
  {
  }
}
