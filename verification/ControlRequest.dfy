/** The 49-byte request a joiner sends on its control stream (core/src/tunnel/iroh/auth.rs). */
module ControlRequest {
  import opened Prelude
  import opened Bytes

  const CONTROL_VERSION: Byte := 1
  const CONTROL_REQUEST_LEN: nat := 1 + 16 + 32

  datatype Request = Request(serviceId: ServiceId, token: Token)

  function Encode(request: Request): (bytes: seq<Byte>) {
    [CONTROL_VERSION] + request.serviceId + request.token
  }

  /** `None` is the unified rejection. */
  function Decode(bytes: seq<Byte>): Option<Request> {
    if |bytes| != CONTROL_REQUEST_LEN || bytes[0] != CONTROL_VERSION then None
    else Some(Request(bytes[1..17], bytes[17..]))
  }

  method Serialize(request: Request) returns (bytes: seq<Byte>)
    ensures bytes == Encode(request)
  {
    var buffer := new Byte[CONTROL_REQUEST_LEN](_ => 0);
    buffer[0] := CONTROL_VERSION;
    CopyInto(buffer, 1, request.serviceId);
    CopyInto(buffer, 17, request.token);
    bytes := buffer[..];
  }

  /** Sending and receiving are inverse in both directions: a byte string is read
      as a request exactly when it is that request's encoding. */
  lemma EncodingIsExact(bytes: seq<Byte>, request: Request)
    ensures Decode(bytes) == Some(request) <==> bytes == Encode(request)
    ensures |Encode(request)| == 49
  {
    if Decode(bytes) == Some(request) {
      assert bytes == [bytes[0]] + bytes[1..17] + bytes[17..];
    }
    var encoded := Encode(request);
    assert encoded[1..17] == request.serviceId && encoded[17..] == request.token;
  }
}
