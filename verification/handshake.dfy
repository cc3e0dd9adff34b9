/** The byte formats of the session layer: layer byte, Hello and Ack
    (`pkg/transport/session.go`, `encodeHello` to `parseHandshakePayload` and
    `serializeMessage`/`deserializeMessage`). */
module Handshake {
  import opened Bytes
  import opened Hosts

  const APPLICATION: byte := 0
  const SESSION: byte := 1
  const HELLO: byte := 1
  const ACK: byte := 2
  const PROTOCOL_VERSION: byte := 1

  datatype Payload = Hello(host: Host) | Ack | VersionMismatch | Malformed

  function EncodeHello(self: Host): Option<seq<byte>> {
    match HostOnWire(self)
    case Some(b) => Some([HELLO, PROTOCOL_VERSION] + b)
    case None => None
  }

  function EncodeAck(): seq<byte> {
    [ACK]
  }

  function ParsePayload(s: seq<byte>): Payload {
    if s == [] then Malformed
    else if s[0] == HELLO then
      if |s| < 2 then Malformed
      else if s[1] != PROTOCOL_VERSION then VersionMismatch
      else match ParseHost(s[2..])
           case Ok(h, _) => Hello(h)
           case Bad => Malformed
    else if s[0] == ACK then Ack
    else Malformed
  }

  /** `serializeMessage`: the layer byte in front of the body. */
  function Serialize(layer: byte, body: seq<byte>): seq<byte> {
    [layer] + body
  }

  /** `deserializeMessage`: an empty message counts as application traffic. */
  function Deserialize(s: seq<byte>): (byte, seq<byte>) {
    if s == [] then (APPLICATION, []) else (s[0], s[1..])
  }

  function AckFrame(): seq<byte> {
    Serialize(SESSION, EncodeAck())
  }

  /** The parser undoes both encoders; a Hello arrives as the announced host. */
  lemma PayloadRoundTrip(self: Host)
    ensures ParsePayload(EncodeAck()) == Ack
    ensures EncodeHello(self).Some? <==> |self.ip| <= 0xFFFF
    ensures EncodeHello(self).Some? ==> ParsePayload(EncodeHello(self).value) == Hello(Announced(self))
  {
    if EncodeHello(self).Some? {
      var b := HostOnWire(self).value;
      HostRoundTrip(self, []);
      assert b + [] == b;
      assert EncodeHello(self).value[2..] == b;
    }
  }

  lemma LayerRoundTrip(layer: byte, body: seq<byte>)
    ensures Deserialize(Serialize(layer, body)) == (layer, body)
  {
    assert Serialize(layer, body)[1..] == body;
  }

  /** Which payloads are a Hello: exactly the bytes 1 and 1, a host as it is written, and
      anything behind it. The host then has a 16-bit port and a name of at most 65535 bytes. */
  lemma HelloExactly(s: seq<byte>, h: Host)
    ensures ParsePayload(s) == Hello(h) <==> Plain(h) && HelloBytes(h) <= s
  {
    if ParsePayload(s) == Hello(h) {
      var rest := ParseHost(s[2..]).rest;
      ParsedHost(s[2..], h, rest);
      assert s == [1, 1] + s[2..];
      HelloRegroups(h, rest);
    }
    if Plain(h) && HelloBytes(h) <= s {
      assert s == HelloBytes(h) + s[|HelloBytes(h)|..];
      HelloParses(h, s[|HelloBytes(h)|..]);
    }
  }

  function HelloBytes(h: Host): seq<byte>
    requires h.port >= 0
  {
    [1, 1] + LittleEndian(|h.ip|, 2) + h.ip + LittleEndian(h.port, 2)
  }

  lemma HelloRegroups(h: Host, rest: seq<byte>)
    requires h.port >= 0
    ensures HelloBytes(h) + rest == [1, 1] + (LittleEndian(|h.ip|, 2) + h.ip + LittleEndian(h.port, 2) + rest)
  {
  }

  lemma HelloParses(h: Host, rest: seq<byte>)
    requires Plain(h)
    ensures ParsePayload(HelloBytes(h) + rest) == Hello(h)
  {
    var s := HelloBytes(h) + rest;
    HelloRegroups(h, rest);
    assert s[2..] == LittleEndian(|h.ip|, 2) + h.ip + LittleEndian(h.port, 2) + rest;
    ParseHostExactly(s[2..], h, rest);
  }

  /** A Hello of any other version is a mismatch, whatever it goes on with, and nothing else is;
      an Ack is known by its first byte; all the rest is malformed. */
  lemma OtherPayloadsExactly(s: seq<byte>)
    ensures ParsePayload(s) == VersionMismatch <==> |s| >= 2 && s[0] == 1 && s[1] != 1
    ensures ParsePayload(s) == Ack <==> |s| >= 1 && s[0] == 2
    ensures ParsePayload(s) == Malformed <==>
              || |s| == 0
              || s[0] !in {1, 2}
              || s == [1]
              || (s[0] == 1 && s[1] == 1 && ParseHost(s[2..]).Bad?)
  {
  }

  /** Layer 0 is the application's, an empty message included, and layer 1 the session's. */
  lemma LayersExactly(s: seq<byte>)
    ensures Deserialize(s).0 == APPLICATION <==> s == [] || s[0] == 0
    ensures Deserialize(s).0 == SESSION <==> s != [] && s[0] == 1
    ensures s != [] ==> s == Serialize(Deserialize(s).0, Deserialize(s).1)
  {
  }
}
