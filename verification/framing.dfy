/** Length-prefixed framing of a byte stream: `encodeFrame`, `decodeFrames` and the
    accumulate-and-decode round of `readFrames` in `pkg/transport/tcp.go`. */
module Framing {
  import opened Bytes

  const MAX_FRAME_SIZE: nat := 16 * 1024 * 1024

  function Frame(payload: seq<byte>): seq<byte> {
    BigEndian(|payload|, 4) + payload
  }

  function FrameAll(payloads: seq<seq<byte>>): seq<byte> {
    if payloads == [] then [] else Frame(payloads[0]) + FrameAll(payloads[1..])
  }

  function Concat(chunks: seq<seq<byte>>): seq<byte> {
    if chunks == [] then [] else chunks[0] + Concat(chunks[1..])
  }

  /** The sender only rejects what a 32-bit length cannot express; the receiver is stricter. */
  function EncodeFrame(payload: seq<byte>): Option<seq<byte>> {
    if |payload| > 0xFFFF_FFFF then None else Some(Frame(payload))
  }

  ghost predicate Legal(payloads: seq<seq<byte>>) {
    forall i :: 0 <= i < |payloads| ==> |payloads[i]| <= MAX_FRAME_SIZE
  }

  function Header(s: seq<byte>): nat
    requires |s| >= 4
  {
    FromBigEndian(s[..4])
  }

  predicate BadHeader(s: seq<byte>) {
    |s| >= 4 && Header(s) > MAX_FRAME_SIZE
  }

  /** The decoder can take no frame off the front of `s`. */
  predicate Stuck(s: seq<byte>) {
    |s| < 4 || BadHeader(s) || |s| < 4 + Header(s)
  }

  /** The frames in front of `s`, and where the decoder stops. */
  datatype Scanned = Scanned(frames: seq<seq<byte>>, rest: seq<byte>)

  function Scan(s: seq<byte>): Scanned
    decreases |s|
  {
    if Stuck(s) then Scanned([], s)
    else
      var tail := Scan(s[4 + Header(s)..]);
      Scanned([s[4..4 + Header(s)]] + tail.frames, tail.rest)
  }

  /** A scan that continues behind frames already taken. */
  function Behind(taken: seq<seq<byte>>, s: Scanned): Scanned {
    Scanned(taken + s.frames, s.rest)
  }

  lemma TakeOne(taken: seq<seq<byte>>, s: seq<byte>)
    requires !Stuck(s)
    ensures Behind(taken, Scan(s)) == Behind(taken + [s[4..][..Header(s)]], Scan(s[4..][Header(s)..]))
  {
    var n := Header(s);
    assert s[4..][..n] == s[4..4 + n] && s[4..][n..] == s[4 + n..];
    Associative(taken, [s[4..4 + n]], Scan(s[4 + n..]).frames);
  }

  /** `decodeFrames`: on a bad length it reports an error and the frames decoded so far in
      the same call are lost; the buffer keeps everything from the bad header on. */
  method DecodeFrames(buf: Buffer) returns (frames: Option<seq<seq<byte>>>)
    modifies buf
    ensures buf.data == Scan(old(buf.data)).rest
    ensures frames == if BadHeader(buf.data) then None else Some(Scan(old(buf.data)).frames)
  {
    var taken: seq<seq<byte>> := [];
    while true
      invariant Scan(old(buf.data)) == Behind(taken, Scan(buf.data))
      decreases |buf.data|
    {
      assert taken + [] == taken;
      if |buf.data| < 4 { return Some(taken); }
      var length := FromBigEndian(buf.data[..4]);
      if length > MAX_FRAME_SIZE { return None; }
      if |buf.data| < 4 + length { return Some(taken); }
      TakeOne(taken, buf.data);
      var _ := buf.ReadFull(4);
      var payload := buf.ReadFull(length);
      taken := taken + [payload.value];
    }
  }

  /** One round of `readFrames`: append what was read, then decode; an empty read does nothing. */
  method ReadFrames(recvBuf: Buffer, chunk: seq<byte>) returns (frames: Option<seq<seq<byte>>>)
    modifies recvBuf
    ensures chunk == [] ==> recvBuf.data == old(recvBuf.data) && frames == Some([])
    ensures chunk != [] ==>
              var s := Scan(old(recvBuf.data) + chunk);
              recvBuf.data == s.rest && frames == (if BadHeader(s.rest) then None else Some(s.frames))
  {
    if |chunk| == 0 { return Some([]); }
    recvBuf.Write(chunk);
    frames := DecodeFrames(recvBuf);
  }

  // --- conservation and uniqueness ------------------------------------------------------

  lemma {:induction false} FrameAllAppend(a: seq<seq<byte>>, b: seq<seq<byte>>)
    ensures FrameAll(a + b) == FrameAll(a) + FrameAll(b)
  {
    if a == [] {
      assert a + b == b;
    } else {
      assert (a + b)[1..] == a[1..] + b;
      calc {
        FrameAll(a + b);
        Frame(a[0]) + FrameAll(a[1..] + b);
        { FrameAllAppend(a[1..], b); }
        Frame(a[0]) + (FrameAll(a[1..]) + FrameAll(b));
        { Associative(Frame(a[0]), FrameAll(a[1..]), FrameAll(b)); }
        FrameAll(a) + FrameAll(b);
      }
    }
  }

  lemma Associative<T>(a: seq<T>, b: seq<T>, c: seq<T>)
    ensures a + (b + c) == a + b + c
  {
  }

  /** On the wire a frame is its length, most significant byte first, and the payload. */
  lemma FrameLayout(payload: seq<byte>)
    requires EncodeFrame(payload).Some?
    ensures var s := EncodeFrame(payload).value;
            |s| == 4 + |payload| && s[4..] == payload && Horner(s[0], s[1], s[2], s[3]) == |payload|
  {
    var s := Frame(payload);
    assert s[..4] == BigEndian(|payload|, 4);
    Powers();
    BigEndianRoundTrip(|payload|, 4);
    FourBytes(s[..4]);
  }

  function Horner(a: int, b: int, c: int, d: int): int {
    ((a * 256 + b) * 256 + c) * 256 + d
  }

  lemma FourBytes(s: seq<byte>)
    requires |s| == 4
    ensures FromBigEndian(s) == Horner(s[0], s[1], s[2], s[3])
  {
    assert s[..3][..2] == s[..2] && s[..2][..1] == s[..1] && s[..1][..0] == [];
    assert FromBigEndian(s[..1]) == s[0];
    assert FromBigEndian(s[..2]) == 256 * s[0] as int + s[1];
    assert FromBigEndian(s[..3]) == 256 * FromBigEndian(s[..2]) + s[2];
  }

  /** A stream whose first frame can be taken is that frame followed by the rest. */
  lemma FirstFrame(s: seq<byte>)
    requires !Stuck(s)
    ensures Frame(s[4..4 + Header(s)]) + s[4 + Header(s)..] == s
  {
    BigEndianInverse(s[..4]);
    CutInThree(s, 4, 4 + Header(s));
  }

  lemma CutInThree<T>(s: seq<T>, i: nat, j: nat)
    requires i <= j <= |s|
    ensures s[..i] + s[i..j] + s[j..] == s
  {
  }

  /** No byte is lost or invented on any input: re-encoding the frames and appending the
      leftover gives the input back, and the leftover holds no complete legal frame. */
  lemma {:induction false} ScanConserves(s: seq<byte>)
    ensures FrameAll(Scan(s).frames) + Scan(s).rest == s
    ensures Legal(Scan(s).frames) && Stuck(Scan(s).rest)
    decreases |s|
  {
    if Stuck(s) {
    } else {
      var payload, more := s[4..4 + Header(s)], s[4 + Header(s)..];
      var tail := Scan(more);
      ScanConserves(more);
      assert FrameAll(Scan(s).frames) + tail.rest == s by {
        FirstFrame(s);
        FrameCons(payload, tail.frames, tail.rest, more);
      }
    }
  }

  lemma FrameCons(payload: seq<byte>, frames: seq<seq<byte>>, rest: seq<byte>, more: seq<byte>)
    requires FrameAll(frames) + rest == more
    ensures FrameAll([payload] + frames) + rest == Frame(payload) + more
  {
    assert ([payload] + frames)[1..] == frames;
  }

  /** `Scan` is the only way to cut a stream into legal frames and a stuck remainder. */
  lemma {:induction false} ScanUnique(frames: seq<seq<byte>>, rest: seq<byte>)
    requires Legal(frames) && Stuck(rest)
    ensures Scan(FrameAll(frames) + rest) == Scanned(frames, rest)
    decreases |frames|
  {
    if frames == [] {
      assert FrameAll(frames) + rest == rest;
    } else {
      var p, more := frames[0], FrameAll(frames[1..]) + rest;
      Associative(Frame(p), FrameAll(frames[1..]), rest);
      ScanFrame(p, more);
      ScanUnique(frames[1..], rest);
      assert frames == [p] + frames[1..];
    }
  }

  /** A legal frame in front is taken whole. */
  lemma ScanFrame(p: seq<byte>, more: seq<byte>)
    requires |p| <= MAX_FRAME_SIZE
    ensures Scan(Frame(p) + more) == Scanned([p] + Scan(more).frames, Scan(more).rest)
  {
    var s := Frame(p) + more;
    Powers();
    BigEndianRoundTrip(|p|, 4);
    assert s[..4] == BigEndian(|p|, 4);
    assert s[4..4 + |p|] == p && s[4 + |p|..] == more;
  }

  /** Decoding in two instalments: the leftover of the first, extended, continues the scan. */
  lemma {:induction false} ScanSplit(a: seq<byte>, b: seq<byte>)
    ensures var first, more := Scan(a), Scan(Scan(a).rest + b);
            Scan(a + b) == Scanned(first.frames + more.frames, more.rest)
  {
    var first, more := Scan(a), Scan(Scan(a).rest + b);
    assert a + b == FrameAll(first.frames + more.frames) + more.rest by {
      ScanConserves(a);
      ScanConserves(first.rest + b);
      FrameAllAppend(first.frames, more.frames);
      Regroup(a, b, FrameAll(first.frames), first.rest, FrameAll(more.frames), more.rest);
    }
    assert Legal(first.frames + more.frames) && Stuck(more.rest) by {
      ScanConserves(a);
      ScanConserves(first.rest + b);
    }
    ScanUnique(first.frames + more.frames, more.rest);
  }

  lemma Regroup(a: seq<byte>, b: seq<byte>, x: seq<byte>, y: seq<byte>, z: seq<byte>, w: seq<byte>)
    requires a == x + y && y + b == z + w
    ensures a + b == x + z + w
  {
    assert a + b == x + (y + b) == x + (z + w);
  }

  /** Once the decoder has hit a bad header, further bytes change nothing. */
  lemma BadHeaderStays(s: seq<byte>, more: seq<byte>)
    requires BadHeader(s)
    ensures Scan(s + more) == Scanned([], s + more) && BadHeader(s + more)
  {
    assert (s + more)[..4] == s[..4];
  }

  // --- the read loop under arbitrary chunking --------------------------------------------

  /** What a connection has handed up after a series of reads. A failed connection is closed. */
  datatype Intake = Intake(delivered: seq<seq<byte>>, buffer: seq<byte>, failed: bool)

  function Feed(buffer: seq<byte>, chunks: seq<seq<byte>>): Intake
    decreases |chunks|
  {
    if chunks == [] then Intake([], buffer, false)
    else
      var s := Scan(buffer + chunks[0]);
      if BadHeader(s.rest) then Intake([], s.rest, true)
      else
        var later := Feed(s.rest, chunks[1..]);
        Intake(s.frames + later.delivered, later.buffer, later.failed)
  }

  /** The per-connection loop of `connectionHandler`. */
  method HandleConnection(chunks: seq<seq<byte>>) returns (out: Intake)
    ensures out == Feed([], chunks)
  {
    var recvBuf := new Buffer([]);
    var delivered: seq<seq<byte>> := [];
    var i := 0;
    while i < |chunks|
      invariant i <= |chunks|
      invariant Stuck(recvBuf.data) && !BadHeader(recvBuf.data)
      invariant Feed([], chunks) == After(delivered, Feed(recvBuf.data, chunks[i..]))
    {
      ScanConserves(recvBuf.data + chunks[i]);
      FeedStep(delivered, recvBuf.data, chunks, i);
      assert chunks[i] == [] ==> recvBuf.data + chunks[i] == recvBuf.data;
      assert delivered + [] == delivered;
      var frames := ReadFrames(recvBuf, chunks[i]);
      if frames == None {
        return Intake(delivered, recvBuf.data, true);
      }
      delivered := delivered + frames.value;
      i := i + 1;
    }
    return Intake(delivered, recvBuf.data, false);
  }

  function After(delivered: seq<seq<byte>>, later: Intake): Intake {
    later.(delivered := delivered + later.delivered)
  }

  lemma FeedStep(delivered: seq<seq<byte>>, buffer: seq<byte>, chunks: seq<seq<byte>>, i: nat)
    requires i < |chunks|
    ensures var s := Scan(buffer + chunks[i]);
            After(delivered, Feed(buffer, chunks[i..])) == (
              if BadHeader(s.rest) then Intake(delivered, s.rest, true)
              else After(delivered + s.frames, Feed(s.rest, chunks[i + 1..])))
  {
    var s := Scan(buffer + chunks[i]);
    var later := Feed(s.rest, chunks[i + 1..]);
    assert chunks[i..][1..] == chunks[i + 1..];
    assert delivered + [] == delivered;
    assert delivered + (s.frames + later.delivered) == delivered + s.frames + later.delivered;
  }

  /** What chunks yield compared with the whole stream scanned at once. */
  ghost predicate Faithful(got: Intake, whole: Scanned) {
    && (got.failed <==> BadHeader(whole.rest))
    && (!got.failed ==> got.delivered == whole.frames && got.buffer == whole.rest)
    && got.delivered <= whole.frames
  }

  /** Reading on behind frames already delivered. */
  lemma StaysFaithful(frames: seq<seq<byte>>, later: Intake, more: Scanned)
    requires Faithful(later, more)
    ensures Faithful(After(frames, later), Behind(frames, more))
  {
  }

  lemma FeedFirst(buffer: seq<byte>, chunks: seq<seq<byte>>)
    requires chunks != []
    ensures var s := Scan(buffer + chunks[0]);
            && (BadHeader(s.rest) ==> Feed(buffer, chunks) == Intake([], s.rest, true))
            && (!BadHeader(s.rest) ==> Feed(buffer, chunks) == After(s.frames, Feed(s.rest, chunks[1..])))
  {
  }

  lemma {:induction false} FeedFrom(buffer: seq<byte>, chunks: seq<seq<byte>>)
    requires Stuck(buffer) && !BadHeader(buffer)
    ensures Faithful(Feed(buffer, chunks), Scan(buffer + Concat(chunks)))
    decreases |chunks|
  {
    if chunks == [] {
      assert buffer + Concat(chunks) == buffer;
    } else {
      var head, later := buffer + chunks[0], Concat(chunks[1..]);
      var s := Scan(head);
      Associative(buffer, chunks[0], later);
      ScanSplit(head, later);
      ScanConserves(head);
      FeedFirst(buffer, chunks);
      if BadHeader(s.rest) {
        BadHeaderStays(s.rest, later);
      } else {
        FeedFrom(s.rest, chunks[1..]);
        StaysFaithful(s.frames, Feed(s.rest, chunks[1..]), Scan(s.rest + later));
      }
    }
  }

  /** Chunking never invents, reorders or alters frames: a connection fails exactly when the
      stream carries a bad length, hands up the stream's own frames when it does not, and a
      prefix of them when it does. */
  lemma ChunkingIsFaithful(chunks: seq<seq<byte>>)
    ensures Faithful(Feed([], chunks), Scan(Concat(chunks)))
  {
    FeedFrom([], chunks);
    assert [] + Concat(chunks) == Concat(chunks);
  }

  /** Legal payloads cross the stream whole and in order, however it is cut. */
  lemma LegalStreamsArrive(payloads: seq<seq<byte>>, chunks: seq<seq<byte>>)
    requires Legal(payloads) && Concat(chunks) == FrameAll(payloads)
    ensures Feed([], chunks) == Intake(payloads, [], false)
  {
    ScanUnique(payloads, []);
    assert FrameAll(payloads) + [] == FrameAll(payloads);
    ChunkingIsFaithful(chunks);
  }

  ghost predicate ChunkIndependent(s: seq<byte>) {
    forall c, d :: Concat(c) == s && Concat(d) == s ==> Feed([], c).delivered == Feed([], d).delivered
  }

  /** What is handed up is independent of chunking exactly when no good frame precedes a bad
      length: frames decoded in the call that meets the bad length are dropped. */
  lemma ChunkIndependenceCondition(s: seq<byte>)
    ensures ChunkIndependent(s) <==> !BadHeader(Scan(s).rest) || Scan(s).frames == []
  {
    var scan := Scan(s);
    if !BadHeader(scan.rest) || scan.frames == [] {
      forall c, d | Concat(c) == s && Concat(d) == s
        ensures Feed([], c).delivered == Feed([], d).delivered
      {
        ChunkingIsFaithful(c);
        ChunkingIsFaithful(d);
      }
    } else {
      AllAtOnce(s);
      CutBeforeTheBadLength(s);
      assert Feed([], [s]).delivered != Feed([], [FrameAll(scan.frames), scan.rest]).delivered;
    }
  }

  lemma AllAtOnce(s: seq<byte>)
    ensures Concat([s]) == s
    ensures BadHeader(Scan(s).rest) ==> Feed([], [s]).delivered == []
  {
    assert Concat([s]) == s + Concat([s][1..]) == s;
    assert [] + s == s;
  }

  lemma CutBeforeTheBadLength(s: seq<byte>)
    ensures var chunks := [FrameAll(Scan(s).frames), Scan(s).rest];
            Concat(chunks) == s && Scan(s).frames <= Feed([], chunks).delivered
  {
    var scan, good := Scan(s), FrameAll(Scan(s).frames);
    var chunks := [good, scan.rest];
    ScanConserves(s);
    assert Concat(chunks[1..]) == scan.rest + Concat(chunks[1..][1..]) == scan.rest;
    ScanUnique(scan.frames, []);
    assert [] + good == good == good + [];
    assert Feed([], chunks).delivered == scan.frames + Feed([], chunks[1..]).delivered;
  }

  /** The sender frames payloads the receiver refuses: one framed payload arrives exactly
      when it respects the receiver's limit. */
  lemma OversizedFramesAreRefused(payload: seq<byte>)
    requires EncodeFrame(payload).Some?
    ensures Feed([], [EncodeFrame(payload).value]) == Intake([payload], [], false)
       <==> |payload| <= 16 * 1024 * 1024
  {
    var s := Frame(payload);
    assert Concat([s]) == s + Concat([s][1..]) == s;
    if |payload| <= MAX_FRAME_SIZE {
      assert FrameAll([payload]) == s + FrameAll([payload][1..]) == s;
      LegalStreamsArrive([payload], [s]);
    } else {
      Powers();
      BigEndianRoundTrip(|payload|, 4);
      assert s[..4] == BigEndian(|payload|, 4);
      assert [] + s == s;
    }
  }
}
