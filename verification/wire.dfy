/** Bytes, fixed-width integers and length-prefixed values: `pkg/wire/wire.go`,
    `pkg/transport/host.go` and `cmd/gossip/gossip/messages.go`.

    A writer is specified by the bytes it appends, a reader by the parser it runs on the
    bytes it has not consumed yet. */
module Bytes {

  type byte = b: int | 0 <= b < 256

  datatype Option<+T> = None | Some(value: T)

  /** What a reader makes of its input: a value and the bytes behind it, or an error. */
  datatype Parsed<+T> = Ok(value: T, rest: seq<byte>) | Bad

  /** A `bytes.Buffer`: writes append, reads consume from the front. */
  class Buffer {
    var data: seq<byte>

    constructor (initial: seq<byte>)
      ensures data == initial
    {
      data := initial;
    }

    method Write(b: seq<byte>)
      modifies this
      ensures data == old(data) + b
    {
      data := data + b;
    }

    /** `io.ReadFull`: all `n` bytes, or an error that has drained what there was. */
    method ReadFull(n: nat) returns (r: Option<seq<byte>>)
      modifies this
      ensures n <= |old(data)| ==> r == Some(old(data)[..n]) && data == old(data)[n..]
      ensures n > |old(data)| ==> r == None && data == []
    {
      if n <= |data| {
        r := Some(data[..n]);
        data := data[n..];
      } else {
        r := None;
        data := [];
      }
    }
  }

  function Pow256(width: nat): (p: nat)
    ensures p >= 1
  {
    if width == 0 then 1 else 256 * Pow256(width - 1)
  }

  function LittleEndian(v: nat, width: nat): (s: seq<byte>)
    ensures |s| == width
  {
    if width == 0 then [] else [v % 256] + LittleEndian(v / 256, width - 1)
  }

  function FromLittleEndian(s: seq<byte>): (v: nat)
    ensures v < Pow256(|s|)
  {
    if s == [] then 0 else s[0] + 256 * FromLittleEndian(s[1..])
  }

  function BigEndian(v: nat, width: nat): (s: seq<byte>)
    ensures |s| == width
  {
    if width == 0 then [] else BigEndian(v / 256, width - 1) + [v % 256]
  }

  function FromBigEndian(s: seq<byte>): (v: nat)
    ensures v < Pow256(|s|)
  {
    if s == [] then 0 else 256 * FromBigEndian(s[..|s| - 1]) + s[|s| - 1]
  }

  lemma {:induction false} LittleEndianRoundTrip(v: nat, width: nat)
    requires v < Pow256(width)
    ensures FromLittleEndian(LittleEndian(v, width)) == v
  {
    if width == 0 {
    } else {
      LittleEndianRoundTrip(v / 256, width - 1);
    }
  }

  lemma {:induction false} BigEndianRoundTrip(v: nat, width: nat)
    requires v < Pow256(width)
    ensures FromBigEndian(BigEndian(v, width)) == v
  {
    if width == 0 {
    } else {
      BigEndianRoundTrip(v / 256, width - 1);
      var s := BigEndian(v, width);
      assert s[..|s| - 1] == BigEndian(v / 256, width - 1);
    }
  }

  lemma {:induction false} BigEndianInverse(s: seq<byte>)
    ensures BigEndian(FromBigEndian(s), |s|) == s
  {
    if s == [] {
    } else {
      BigEndianInverse(s[..|s| - 1]);
      assert s == s[..|s| - 1] + [s[|s| - 1]];
    }
  }

  /** Byte `k` of a little-endian value is its digit `k` to the base 256. */
  lemma {:induction false} LittleEndianAt(v: nat, width: nat, k: nat)
    requires k < width
    ensures LittleEndian(v, width)[k] == v / Pow256(k) % 256
  {
    if k > 0 {
      LittleEndianAt(v / 256, width - 1, k - 1);
      DivideTwice(v, Pow256(k - 1));
    }
  }

  /** Byte `k` of a big-endian value is the digit as far from the other end. */
  lemma {:induction false} BigEndianAt(v: nat, width: nat, k: nat)
    requires k < width
    ensures BigEndian(v, width)[k] == v / Pow256(width - 1 - k) % 256
  {
    if k < width - 1 {
      BigEndianAt(v / 256, width - 1, k);
      DivideTwice(v, Pow256(width - 2 - k));
    }
  }

  lemma DivideTwice(v: nat, p: nat)
    requires p >= 1
    ensures v / 256 / p == v / (256 * p)
  {
    var q := v / 256 / p;
    var r := v / 256 - q * p;
    assert 0 <= r < p;
    assert v == 256 * p * q + (256 * r + v % 256) by {
      assert v == 256 * (v / 256) + v % 256;
      assert 256 * (q * p) == 256 * p * q;
    }
    QuotientIs(v, 256 * p, q, 256 * r + v % 256);
  }

  lemma Multiples(d: int, e: int)
    requires d > 0
    ensures e >= 1 ==> d * e >= d
    ensures e <= -1 ==> d * e <= -d
  {
  }

  lemma QuotientIs(v: int, d: int, q: int, r: int)
    requires d > 0 && 0 <= r < d && v == d * q + r
    ensures v / d == q
  {
    var e := v / d - q;
    assert d * e == r - v % d;
    Multiples(d, e);
  }

  lemma {:induction false} LittleEndianInverse(s: seq<byte>)
    ensures LittleEndian(FromLittleEndian(s), |s|) == s
  {
    if s == [] {
    } else {
      LittleEndianInverse(s[1..]);
      assert s == [s[0]] + s[1..];
    }
  }

  lemma Powers()
    ensures Pow256(2) == 0x1_0000 && Pow256(4) == 0x1_0000_0000
    ensures Pow256(8) == 0x1_0000_0000_0000_0000
  {
    assert Pow256(1) == 256 * Pow256(0);
    assert Pow256(3) == 256 * Pow256(2);
    assert Pow256(5) == 256 * Pow256(4);
    assert Pow256(6) == 256 * Pow256(5);
    assert Pow256(7) == 256 * Pow256(6);
  }
}

module Wire {
  import opened Bytes

  // --- fixed-width little-endian integers -------------------------------------------

  function ParseUint(s: seq<byte>, width: nat): Parsed<nat> {
    if |s| < width then Bad else Ok(FromLittleEndian(s[..width]), s[width..])
  }

  method WriteUint(w: Buffer, v: nat, width: nat)
    modifies w
    ensures w.data == old(w.data) + LittleEndian(v, width)
  {
    w.Write(LittleEndian(v, width));
  }

  method ReadUint(r: Buffer, width: nat) returns (v: Option<nat>)
    modifies r
    ensures match ParseUint(old(r.data), width)
            case Ok(n, rest) => v == Some(n) && r.data == rest
            case Bad => v == None && r.data == []
  {
    var raw := r.ReadFull(width);
    match raw
    case Some(b) => v := Some(FromLittleEndian(b));
    case None => v := None;
  }

  lemma ParseUintInverse(v: nat, width: nat, tail: seq<byte>)
    requires v < Pow256(width)
    ensures ParseUint(LittleEndian(v, width) + tail, width) == Ok(v, tail)
  {
    LittleEndianRoundTrip(v, width);
    var s := LittleEndian(v, width) + tail;
    assert s[..width] == LittleEndian(v, width) && s[width..] == tail;
  }

  /** The parser accepts exactly what the writer writes, in front of anything. */
  lemma ParseUintExactly(s: seq<byte>, width: nat, v: nat, rest: seq<byte>)
    ensures ParseUint(s, width) == Ok(v, rest) <==> v < Pow256(width) && s == LittleEndian(v, width) + rest
    ensures ParseUint(s, width) == Bad <==> |s| < width
  {
    if ParseUint(s, width) == Ok(v, rest) {
      LittleEndianInverse(s[..width]);
      assert s == s[..width] + s[width..];
    } else if v < Pow256(width) {
      ParseUintInverse(v, width, rest);
    }
  }

  // --- length-prefixed byte slices ----------------------------------------------------

  /** The length prefix is a `uint32` conversion, which truncates. */
  function BytesOnWire(b: seq<byte>): seq<byte> {
    LittleEndian(|b| % 0x1_0000_0000, 4) + b
  }

  function ParseBytes(s: seq<byte>): Parsed<seq<byte>> {
    match ParseUint(s, 4)
    case Bad => Bad
    case Ok(n, rest) => if |rest| < n then Bad else Ok(rest[..n], rest[n..])
  }

  method WriteBytes(w: Buffer, b: seq<byte>)
    modifies w
    ensures w.data == old(w.data) + BytesOnWire(b)
  {
    WriteUint(w, |b| % 0x1_0000_0000, 4);
    if |b| == 0 { return; }
    w.Write(b);
  }

  method ReadBytes(r: Buffer) returns (b: Option<seq<byte>>)
    modifies r
    ensures match ParseBytes(old(r.data))
            case Ok(v, rest) => b == Some(v) && r.data == rest
            case Bad => b == None && r.data == []
  {
    var n := ReadUint(r, 4);
    if n == None { return None; }
    if n.value == 0 { return Some([]); }
    b := r.ReadFull(n.value);
  }

  /** A slice survives the wire exactly when its length fits the 32-bit prefix. */
  lemma BytesRoundTrip(b: seq<byte>, tail: seq<byte>)
    ensures ParseBytes(BytesOnWire(b) + tail) == Ok(b, tail) <==> |b| < 0x1_0000_0000
  {
    Powers();
    var n := |b| % 0x1_0000_0000;
    ParseUintInverse(n, 4, b + tail);
    assert BytesOnWire(b) + tail == LittleEndian(n, 4) + (b + tail);
    if n == |b| {
      assert (b + tail)[..n] == b && (b + tail)[n..] == tail;
    }
  }

  /** The reader accepts exactly a prefix of four little-endian bytes and that many bytes
      behind it; shorter input fails. */
  lemma ParseBytesExactly(s: seq<byte>, b: seq<byte>, rest: seq<byte>)
    ensures ParseBytes(s) == Ok(b, rest) <==> |b| < 0x1_0000_0000 && s == LittleEndian(|b|, 4) + b + rest
    ensures ParseBytes(s) == Bad <==> |s| < 4 || |s| < 4 + FromLittleEndian(s[..4])
  {
    Powers();
    ParseUintExactly(s, 4, |b|, b + rest);
    assert LittleEndian(|b|, 4) + b + rest == LittleEndian(|b|, 4) + (b + rest);
    if ParseBytes(s).Ok? {
      var n := FromLittleEndian(s[..4]);
      assert s[4..] == s[4..][..n] + s[4..][n..];
    }
    assert (b + rest)[..|b|] == b && (b + rest)[|b|..] == rest;
  }
}

module Hosts {
  import opened Bytes
  import opened Wire

  datatype Host = Host(port: int, ip: seq<byte>)

  const ZERO_HOST := Host(0, [])

  /** The host a receiver reconstructs: the port crosses the wire as a `uint16`. */
  function Announced(h: Host): Host {
    Host(h.port % 0x1_0000, h.ip)
  }

  /** `WriteHost` refuses names longer than 65535 bytes. */
  function HostOnWire(h: Host): Option<seq<byte>> {
    if |h.ip| > 0xFFFF then None
    else Some(LittleEndian(|h.ip|, 2) + h.ip + LittleEndian(h.port % 0x1_0000, 2))
  }

  function ParseHost(s: seq<byte>): Parsed<Host> {
    match ParseUint(s, 2)
    case Bad => Bad
    case Ok(n, rest) =>
      if |rest| < n then Bad else
      match ParseUint(rest[n..], 2)
      case Bad => Bad
      case Ok(port, tail) => Ok(Host(port, rest[..n]), tail)
  }

  method WriteHost(w: Buffer, h: Host) returns (ok: bool)
    modifies w
    ensures match HostOnWire(h)
            case Some(b) => ok && w.data == old(w.data) + b
            case None => !ok && w.data == old(w.data)
  {
    if |h.ip| > 0xFFFF { return false; }
    WriteUint(w, |h.ip|, 2);
    w.Write(h.ip);
    WriteUint(w, h.port % 0x1_0000, 2);
    return true;
  }

  method ReadHost(r: Buffer) returns (h: Option<Host>)
    modifies r
    ensures match ParseHost(old(r.data))
            case Ok(v, rest) => h == Some(v) && r.data == rest
            case Bad => h == None && r.data == []
  {
    var n := ReadUint(r, 2);
    if n == None { return None; }
    var ip: Option<seq<byte>> := Some([]);
    if n.value > 0 {
      ip := r.ReadFull(n.value);
      if ip == None { return None; }
    }
    var port := ReadUint(r, 2);
    if port == None { return None; }
    return Some(Host(port.value, ip.value));
  }

  /** Reading back a written host yields the announced host, and leaves what follows. */
  lemma HostRoundTrip(h: Host, tail: seq<byte>)
    requires HostOnWire(h).Some?
    ensures ParseHost(HostOnWire(h).value + tail) == Ok(Announced(h), tail)
    ensures Announced(h) == h <==> 0 <= h.port < 0x1_0000
  {
    Powers();
    var port := LittleEndian(h.port % 0x1_0000, 2);
    var body := h.ip + (port + tail);
    assert HostOnWire(h).value + tail == LittleEndian(|h.ip|, 2) + body;
    ParseUintInverse(|h.ip|, 2, body);
    assert body[..|h.ip|] == h.ip && body[|h.ip|..] == port + tail;
    ParseUintInverse(h.port % 0x1_0000, 2, tail);
  }

  /** The reader accepts exactly name length, name and port, each number in two little-endian
      bytes, and it only ever yields ports of 16 bits. */
  lemma ParseHostExactly(s: seq<byte>, h: Host, rest: seq<byte>)
    ensures ParseHost(s) == Ok(h, rest) <==>
              Plain(h) && s == LittleEndian(|h.ip|, 2) + h.ip + LittleEndian(h.port, 2) + rest
  {
    if ParseHost(s) == Ok(h, rest) {
      ParsedHost(s, h, rest);
    } else if Plain(h) {
      HostRoundTrip(h, rest);
    }
  }

  /** A host that the format can express. */
  predicate Plain(h: Host) {
    |h.ip| <= 0xFFFF && 0 <= h.port < 0x1_0000
  }

  lemma ParsedHost(s: seq<byte>, h: Host, rest: seq<byte>)
    requires ParseHost(s) == Ok(h, rest)
    ensures Plain(h) && s == LittleEndian(|h.ip|, 2) + h.ip + LittleEndian(h.port, 2) + rest
  {
    Powers();
    var tail := s[2..];
    ParseUintExactly(s, 2, |h.ip|, tail);
    ParseUintExactly(tail[|h.ip|..], 2, h.port, rest);
    CutAt(tail, |h.ip|);
    Regroup(LittleEndian(|h.ip|, 2), h.ip, LittleEndian(h.port, 2), rest);
  }

  lemma CutAt(s: seq<byte>, n: nat)
    requires n <= |s|
    ensures s == s[..n] + s[n..]
  {
  }

  lemma Regroup(a: seq<byte>, b: seq<byte>, c: seq<byte>, d: seq<byte>)
    ensures a + (b + (c + d)) == a + b + c + d
  {
  }
}

module GossipCodec {
  import opened Bytes
  import opened Wire

  datatype Message = Message(id: nat, payload: seq<byte>)

  function OnWire(m: Message): seq<byte> {
    LittleEndian(m.id, 8) + BytesOnWire(m.payload)
  }

  /** Bytes behind the payload are ignored. */
  function Parse(s: seq<byte>): Option<Message> {
    match ParseUint(s, 8)
    case Bad => None
    case Ok(id, rest) =>
      match ParseBytes(rest)
      case Bad => None
      case Ok(payload, _) => Some(Message(id, payload))
  }

  method Marshal(m: Message) returns (b: seq<byte>)
    ensures b == OnWire(m)
  {
    var buf := new Buffer([]);
    WriteUint(buf, m.id, 8);
    WriteBytes(buf, m.payload);
    return buf.data;
  }

  method Unmarshal(b: seq<byte>) returns (m: Option<Message>)
    ensures m == Parse(b)
  {
    var r := new Buffer(b);
    var id := ReadUint(r, 8);
    if id == None { return None; }
    var payload := ReadBytes(r);
    if payload == None { return None; }
    return Some(Message(id.value, payload.value));
  }

  /** A gossip message decodes to itself exactly when its payload fits the length prefix. */
  lemma MessageRoundTrip(m: Message)
    requires m.id < 0x1_0000_0000_0000_0000
    ensures Parse(OnWire(m)) == Some(m) <==> |m.payload| < 0x1_0000_0000
  {
    Powers();
    ParseUintInverse(m.id, 8, BytesOnWire(m.payload));
    BytesRoundTrip(m.payload, []);
    assert BytesOnWire(m.payload) + [] == BytesOnWire(m.payload);
    if |m.payload| >= 0x1_0000_0000 {
      var n := |m.payload| % 0x1_0000_0000;
      ParseUintInverse(n, 4, m.payload);
    }
  }

  /** The decoder accepts exactly eight bytes of identifier, four of length and that many of
      payload, little-endian, whatever follows. */
  lemma ParseExactly(s: seq<byte>, m: Message)
    ensures Parse(s) == Some(m) <==> Plain(m) && Head(m) <= s
  {
    if Parse(s) == Some(m) {
      Parsed(s, m);
    }
    if Plain(m) && Head(m) <= s {
      assert s == Head(m) + s[|Head(m)|..];
      HeadParses(m, s[|Head(m)|..]);
    }
  }

  predicate Plain(m: Message) {
    m.id < 0x1_0000_0000_0000_0000 && |m.payload| < 0x1_0000_0000
  }

  function Head(m: Message): seq<byte> {
    LittleEndian(m.id, 8) + (LittleEndian(|m.payload|, 4) + m.payload)
  }

  lemma Parsed(s: seq<byte>, m: Message)
    requires Parse(s) == Some(m)
    ensures Plain(m) && Head(m) <= s
  {
    Powers();
    var rest := s[8..];
    var tail := ParseBytes(rest).rest;
    ParseUintExactly(s, 8, m.id, rest);
    ParseBytesExactly(rest, m.payload, tail);
    Regroup(LittleEndian(m.id, 8), LittleEndian(|m.payload|, 4) + m.payload, tail);
  }

  lemma Regroup(a: seq<byte>, b: seq<byte>, c: seq<byte>)
    ensures a + (b + c) == a + b + c
    ensures a + b <= a + b + c
  {
  }

  lemma HeadParses(m: Message, tail: seq<byte>)
    requires Plain(m)
    ensures Parse(Head(m) + tail) == Some(m)
  {
    Powers();
    var rest := LittleEndian(|m.payload|, 4) + m.payload + tail;
    assert Head(m) + tail == LittleEndian(m.id, 8) + rest;
    ParseUintInverse(m.id, 8, rest);
    ParseBytesExactly(rest, m.payload, tail);
  }
}
