/** The NET receive loop of `RecvExecutable` (src/RecvExecutable.cpp) for a session in the base group,
    and what it makes of a byte stream that arrives in arbitrary pieces. How a packet image is turned
    into plain text is a parameter of the loop's semantics; `NetOpen` is the cipher of this program. */
module Framing {
  import opened Bytes
  import opened Cipher
  import opened RingBuffer

  /** What one pass of the loop does with the bytes in the ring: packets handed to the content code,
      bytes left in the ring, and whether the session was closed. */
  datatype Pass = Pass(delivered: seq<seq<byte>>, rest: seq<byte>, closed: bool)

  /** A header at the front that the loop refuses. */
  predicate BadHeader(s: seq<byte>, maxLen: nat)
    requires |s| >= HEADER
  {
    s[0] != PACKET_CODE || LenField(s) > maxLen
  }

  /** A whole packet, with a header the loop accepts, at the front. */
  predicate HasPacket(s: seq<byte>, maxLen: nat) {
    |s| >= HEADER && !BadHeader(s, maxLen) && |s| >= HEADER + LenField(s)
  }

  /** What deciphering and the checksum test make of one packet image. */
  datatype Opened = Opened(plain: seq<byte>, valid: bool)

  type Opener = seq<byte> -> Opened

  /** `Decode` followed by `ChecksumValid`. */
  function OpenPacket(image: seq<byte>, key: byte): Opened {
    if |image| < HEADER then Opened(image, false) else
      var d := DecodedPacket(image, key);
      Opened(d, Sum(d[HEADER..]) == d[CHECKSUM_OFFSET])
  }

  function NetOpen(key: byte): Opener {
    image => OpenPacket(image, key)
  }

  ghost predicate OpensWith(open: Opener, key: byte) {
    forall image {:trigger OpenPacket(image, key)} :: open(image) == OpenPacket(image, key)
  }

  /** The stream semantics of the loop. */
  function Frames(s: seq<byte>, open: Opener, maxLen: nat): (r: Pass)
    ensures !r.closed ==> |r.rest| <= |s| && !HasPacket(r.rest, maxLen)
    decreases |s|
  {
    if |s| < HEADER then Pass([], s, false)
    else if BadHeader(s, maxLen) then Pass([], s, true)
    else if |s| < HEADER + LenField(s) then Pass([], s, false)
    else
      var n := HEADER + LenField(s);
      var o := open(s[..n]);
      if !o.valid then Pass([], o.plain + s[n..], true)
      else
        var next := Frames(s[n..], open, maxLen);
        Pass([Payload(o.plain)] + next.delivered, next.rest, next.closed)
  }

  function Payload(plain: seq<byte>): seq<byte> {
    if |plain| < HEADER then [] else plain[HEADER..]
  }

  lemma ConsTail<T>(s: seq<T>)
    requires s != []
    ensures [s[0]] + s[1..] == s
  {
  }

  function Prepend(delivered: seq<seq<byte>>, p: Pass): Pass {
    Pass(delivered + p.delivered, p.rest, p.closed)
  }

  lemma PrependTwice(a: seq<seq<byte>>, b: seq<seq<byte>>, p: Pass)
    ensures Prepend(a, Prepend(b, p)) == Prepend(a + b, p)
  {
    Assoc(a, b, p.delivered);
  }

  /** Where the loop stops without looking inside a packet. */
  lemma FramesStop(s: seq<byte>, open: Opener, maxLen: nat)
    requires !HasPacket(s, maxLen)
    ensures Frames(s, open, maxLen) == Pass([], s, |s| >= HEADER && BadHeader(s, maxLen))
  {
  }

  /** One whole packet at the front. */
  lemma FramesTurn(s: seq<byte>, open: Opener, maxLen: nat)
    requires HasPacket(s, maxLen)
    ensures
      var n := HEADER + LenField(s);
      var o := open(s[..n]);
      Frames(s, open, maxLen) ==
        if o.valid then Prepend([Payload(o.plain)], Frames(s[n..], open, maxLen))
        else Pass([], o.plain + s[n..], true)
  {
  }

  /** What the loop refuses: a foreign code byte, a length over the limit, a packet whose payload bytes, deciphered, do
      not add up to its checksum byte. It waits for bytes that are missing, and delivers the deciphered payload of
      every other packet. */
  lemma FirstPacketIsJudged(s: seq<byte>, key: byte, open: Opener, maxLen: nat)
    requires OpensWith(open, key) && |s| >= HEADER
    ensures
      var len := (s[1] as int) + 256 * (s[2] as int);
      var f := Frames(s, open, maxLen);
      if s[0] != 0x77 || len > maxLen then f == Pass([], s, true)
      else if |s| < 5 + len then f == Pass([], s, false)
      else
        var d := DecodedPacket(s[..5 + len], key);
        && |d| == 5 + len && d[..4] == s[..4]
        && if Total(d[5..]) % 256 != d[4] as int then f == Pass([], d + s[5 + len..], true)
           else f == Prepend([d[5..]], Frames(s[5 + len..], open, maxLen))
  {
    if HasPacket(s, maxLen) {
      var n := HEADER + LenField(s);
      FramesTurn(s, open, maxLen);
      SumIsTotal(DecodedPacket(s[..n], key)[HEADER..]);
      assert open(s[..n]) == OpenPacket(s[..n], key);
    } else {
      FramesStop(s, open, maxLen);
    }
  }

  /** What the loop makes of `a` followed by `b`, told from what it made of `a`. */
  function Continued(first: Pass, b: seq<byte>, open: Opener, maxLen: nat): Pass {
    if first.closed then Pass(first.delivered, first.rest + b, true)
    else Prepend(first.delivered, Frames(first.rest + b, open, maxLen))
  }

  /** A later piece continues exactly where the loop stopped on the earlier one, for every byte
      stream, well formed or not, and every cipher. */
  lemma {:induction false} FramesSplit(a: seq<byte>, b: seq<byte>, open: Opener, maxLen: nat)
    ensures Frames(a + b, open, maxLen) == Continued(Frames(a, open, maxLen), b, open, maxLen)
    decreases |a|
  {
    if HasPacket(a, maxLen) {
      FramesSplit(a[HEADER + LenField(a)..], b, open, maxLen);
      SplitAfterPacket(a, b, open, maxLen);
    } else {
      SplitAtStop(a, b, open, maxLen);
    }
  }

  lemma SplitAtStop(a: seq<byte>, b: seq<byte>, open: Opener, maxLen: nat)
    requires !HasPacket(a, maxLen)
    ensures Frames(a + b, open, maxLen) == Continued(Frames(a, open, maxLen), b, open, maxLen)
  {
    FramesStop(a, open, maxLen);
    if |a| >= HEADER {
      LenFieldPrefix(a, a + b);
      if BadHeader(a, maxLen) {
        FramesStop(a + b, open, maxLen);
      }
    }
  }

  lemma SplitAfterPacket(a: seq<byte>, b: seq<byte>, open: Opener, maxLen: nat)
    requires HasPacket(a, maxLen)
    requires
      var rest := a[HEADER + LenField(a)..];
      Frames(rest + b, open, maxLen) == Continued(Frames(rest, open, maxLen), b, open, maxLen)
    ensures Frames(a + b, open, maxLen) == Continued(Frames(a, open, maxLen), b, open, maxLen)
  {
    SplitInPacket(a, b, open, maxLen);
    var n := HEADER + LenField(a);
    var o := open(a[..n]);
    if o.valid {
      ContinuedAfter(Payload(o.plain), Frames(a[n..], open, maxLen), b, open, maxLen);
    }
  }

  /** The first packet of `a` is the first packet of `a + b`. */
  lemma SplitInPacket(a: seq<byte>, b: seq<byte>, open: Opener, maxLen: nat)
    requires HasPacket(a, maxLen)
    ensures
      var n := HEADER + LenField(a);
      var o := open(a[..n]);
      && Frames(a, open, maxLen) == (
          if o.valid then Prepend([Payload(o.plain)], Frames(a[n..], open, maxLen))
          else Pass([], o.plain + a[n..], true))
      && Frames(a + b, open, maxLen) == (
          if o.valid then Prepend([Payload(o.plain)], Frames(a[n..] + b, open, maxLen))
          else Pass([], o.plain + a[n..] + b, true))
  {
    var s := a + b;
    LenFieldPrefix(a, s);
    var n := HEADER + LenField(a);
    assert s[..n] == a[..n] && s[n..] == a[n..] + b;
    FramesTurn(a, open, maxLen);
    FramesTurn(s, open, maxLen);
    Assoc(open(a[..n]).plain, a[n..], b);
  }

  lemma ContinuedAfter(p: seq<byte>, first: Pass, b: seq<byte>, open: Opener, maxLen: nat)
    ensures Prepend([p], Continued(first, b, open, maxLen)) == Continued(Prepend([p], first), b, open, maxLen)
  {
    PrependTwice([p], first.delivered, Frames(first.rest + b, open, maxLen));
  }

  /** Receive completions one after another: each piece is appended and, while the session is open,
      the loop runs. */
  function Arrive(before: Pass, chunks: seq<seq<byte>>, open: Opener, maxLen: nat): Pass
    decreases |chunks|
  {
    if chunks == [] then before
    else if before.closed then
      Arrive(Pass(before.delivered, before.rest + chunks[0], true), chunks[1..], open, maxLen)
    else
      var next := Frames(before.rest + chunks[0], open, maxLen);
      Arrive(Prepend(before.delivered, next), chunks[1..], open, maxLen)
  }

  function Concat(chunks: seq<seq<byte>>): seq<byte> {
    if chunks == [] then [] else chunks[0] + Concat(chunks[1..])
  }

  /** However the stream is cut, the packets delivered, the bytes left and the decision to close are
      those of the uncut stream. */
  lemma {:induction false} ChunkingIndependence(sofar: seq<byte>, chunks: seq<seq<byte>>, open: Opener, maxLen: nat)
    ensures Arrive(Frames(sofar, open, maxLen), chunks, open, maxLen) == Frames(sofar + Concat(chunks), open, maxLen)
    decreases |chunks|
  {
    if chunks == [] {
      assert sofar + Concat(chunks) == sofar;
    } else {
      FramesSplit(sofar, chunks[0], open, maxLen);
      ChunkingIndependence(sofar + chunks[0], chunks[1..], open, maxLen);
      Assoc(sofar, chunks[0], Concat(chunks[1..]));
    }
  }

  /** The bytes a sender puts on the wire for a list of payloads. */
  function Stream(payloads: seq<seq<byte>>, key: byte): seq<byte> {
    if payloads == [] then [] else Packet(payloads[0], key) + Stream(payloads[1..], key)
  }

  predicate Sendable(payloads: seq<seq<byte>>, maxLen: nat) {
    forall i :: 0 <= i < |payloads| ==> |payloads[i]| <= maxLen && |payloads[i]| <= MAX_PAYLOAD
  }

  /** An encoded packet opens to its payload. */
  lemma OpensToPayload(p: seq<byte>, key: byte)
    requires |p| <= MAX_PAYLOAD
    ensures OpenPacket(Packet(p, key), key).valid && Payload(OpenPacket(Packet(p, key), key).plain) == p
  {
    PacketRoundTrip(p, key);
    assert PlainPacket(p)[HEADER..] == p;
  }

  /** One encoded packet at the front is accepted, deciphered and delivered. */
  lemma FramesPacket(p: seq<byte>, tail: seq<byte>, key: byte, open: Opener, maxLen: nat)
    requires |p| <= maxLen && |p| <= MAX_PAYLOAD && OpensWith(open, key)
    ensures Frames(Packet(p, key) + tail, open, maxLen) == Prepend([p], Frames(tail, open, maxLen))
  {
    var image := Packet(p, key);
    var s := image + tail;
    PacketHeader(p, key);
    LenFieldPrefix(image, s);
    OpensToPayload(p, key);
    var n := HEADER + |p|;
    assert s[..n] == image && s[n..] == tail;
    FramesTurn(s, open, maxLen);
  }

  /** A stream of sendable payloads followed by anything. */
  lemma {:induction false} FramesStream(ps: seq<seq<byte>>, tail: seq<byte>, key: byte, open: Opener, maxLen: nat)
    requires Sendable(ps, maxLen) && OpensWith(open, key)
    ensures Frames(Stream(ps, key) + tail, open, maxLen) == Prepend(ps, Frames(tail, open, maxLen))
  {
    if ps == [] {
      assert Stream(ps, key) + tail == tail;
    } else {
      Assoc(Packet(ps[0], key), Stream(ps[1..], key), tail);
      FramesPacket(ps[0], Stream(ps[1..], key) + tail, key, open, maxLen);
      FramesStream(ps[1..], tail, key, open, maxLen);
      PrependTwice([ps[0]], ps[1..], Frames(tail, open, maxLen));
      ConsTail(ps);
    }
  }

  /** A proper beginning of a packet delivers nothing and is kept. */
  lemma FramesIncomplete(p: seq<byte>, key: byte, open: Opener, maxLen: nat, n: nat)
    requires |p| <= maxLen && |p| <= MAX_PAYLOAD && n < HEADER + |p|
    ensures Frames(Packet(p, key)[..n], open, maxLen) == Pass([], Packet(p, key)[..n], false)
  {
    PacketHeader(p, key);
    if n >= HEADER {
      LenFieldPrefix(Packet(p, key)[..n], Packet(p, key));
    }
  }

  /** Reassembly: any cutting of the stream of `ps` and of a proper beginning of one more packet
      delivers exactly `ps` in order, never closes, and leaves only that beginning. */
  lemma Reassembly(ps: seq<seq<byte>>, last: seq<byte>, n: nat, chunks: seq<seq<byte>>, key: byte, maxLen: nat)
    requires Sendable(ps, maxLen) && |last| <= maxLen && |last| <= MAX_PAYLOAD && n < HEADER + |last|
    requires Concat(chunks) == Stream(ps, key) + Packet(last, key)[..n]
    ensures Arrive(Pass([], [], false), chunks, NetOpen(key), maxLen) == Pass(ps, Packet(last, key)[..n], false)
  {
    ChunkingIndependence([], chunks, NetOpen(key), maxLen);
    assert [] + Concat(chunks) == Concat(chunks);
    FramesStop([], NetOpen(key), maxLen);
    FramesStream(ps, Packet(last, key)[..n], key, NetOpen(key), maxLen);
    FramesIncomplete(last, key, NetOpen(key), maxLen, n);
  }

  /** What stays in the ring is less than one packet. */
  lemma {:induction false} RestIsShort(s: seq<byte>, open: Opener, maxLen: nat)
    requires !Frames(s, open, maxLen).closed
    ensures |Frames(s, open, maxLen).rest| < HEADER + maxLen || |Frames(s, open, maxLen).rest| < HEADER
    decreases |s|
  {
    if HasPacket(s, maxLen) {
      RestIsShort(s[HEADER + LenField(s)..], open, maxLen);
    }
  }

  /** The beginning of a packet that is as long as the ring. */
  function TooLong(): (s: seq<byte>)
    ensures |s| == SIZE - 1
  {
    [PACKET_CODE] + ToLE(SIZE - HEADER, 2) + seq(SIZE - 4, _ => 0)
  }

  lemma TooLongStays(open: Opener, maxLen: nat)
    requires maxLen >= SIZE - HEADER
    ensures Frames(TooLong(), open, maxLen) == Pass([], TooLong(), false)
  {
    LERoundTrip(SIZE - HEADER, 2);
    var s, n := TooLong(), ToLE(SIZE - HEADER, 2);
    assert s[1] == n[0] && s[2] == n[1];
    FramesStop(s, open, maxLen);
  }

  /** There is always room for the next receive of a base-group session, whatever it receives, if and only if
      the packet limit leaves a packet that fits the ring. */
  lemma RoomIsExact(open: Opener, maxLen: nat)
    ensures
      maxLen <= SIZE - 1 - HEADER <==>
        forall s: seq<byte> ::
          |s| < SIZE && !Frames(s, open, maxLen).closed ==> |Frames(s, open, maxLen).rest| < SIZE - 1
  {
    if maxLen <= SIZE - 1 - HEADER {
      forall s: seq<byte> | |s| < SIZE && !Frames(s, open, maxLen).closed
        ensures |Frames(s, open, maxLen).rest| < SIZE - 1
      {
        RestIsShort(s, open, maxLen);
      }
    } else {
      TooLongStays(open, maxLen);
    }
  }

  /** The part of the loop body that runs once a whole packet is in the ring. The content code reads
      the payload to its end, which takes it off the ring. */
  method TakePacket(recvQ: CRingBuffer, key: byte, len: nat, ghost open: Opener)
    returns (valid: bool, payload: seq<byte>)
    requires recvQ.Valid() && recvQ.Size() >= HEADER + len && LenField(recvQ.Contents()) == len
    requires OpensWith(open, key)
    modifies recvQ, recvQ.buffer
    ensures recvQ.Valid()
    ensures
      var s := old(recvQ.Contents());
      var o := open(s[..HEADER + len]);
      && valid == o.valid
      && recvQ.Contents() == (if valid then s[HEADER + len..] else o.plain + s[HEADER + len..])
      && (valid ==> payload == Payload(o.plain))
  {
    ghost var s := recvQ.Contents();
    ghost var d := OpenPacket(s[..HEADER + len], key).plain;
    payload := [];
    recvQ.Decode(key);
    ghost var c := recvQ.Contents();
    HeaderKept(s, c, d, len);
    valid := recvQ.ChecksumValid();
    if !valid {
      return;
    }
    var _, _ := recvQ.Dequeue(HEADER);
    var _, p := recvQ.Peek(len);
    payload := p;
    var _, _ := recvQ.Dequeue(len);
  }

  /** Deciphering keeps the length field; where the parts of the result lie. */
  lemma HeaderKept(s: seq<byte>, c: seq<byte>, d: seq<byte>, len: nat)
    requires |s| >= HEADER + len && LenField(s) == len && |d| == HEADER + len
    requires d[..CHECKSUM_OFFSET] == s[..HEADER + len][..CHECKSUM_OFFSET] && c == d + s[HEADER + len..]
    ensures LenField(c) == len
    ensures c[HEADER..HEADER + len] == d[HEADER..] && c[CHECKSUM_OFFSET] == d[CHECKSUM_OFFSET]
    ensures c[HEADER..][..len] == d[HEADER..] && c[HEADER..][len..] == s[HEADER + len..]
  {
    assert c[1] == d[..CHECKSUM_OFFSET][1] && c[2] == d[..CHECKSUM_OFFSET][2];
  }

  datatype Turn = Waits | Closes | Delivers(payload: seq<byte>)

  /** What a turn says about a stream that begins with `was`, when `now` is left. */
  ghost predicate TurnIs(t: Turn, was: seq<byte>, now: seq<byte>, open: Opener, maxLen: nat) {
    Frames(was, open, maxLen) ==
      match t
      case Waits => Pass([], now, false)
      case Closes => Pass([], now, true)
      case Delivers(payload) => Prepend([payload], Frames(now, open, maxLen))
  }

  lemma TurnStops(s: seq<byte>, open: Opener, maxLen: nat)
    requires !HasPacket(s, maxLen)
    ensures TurnIs(if |s| >= HEADER && BadHeader(s, maxLen) then Closes else Waits, s, s, open, maxLen)
  {
    FramesStop(s, open, maxLen);
  }

  /** What TakePacket leaves is what the turn says. */
  lemma TurnTakes(s: seq<byte>, valid: bool, payload: seq<byte>, now: seq<byte>, open: Opener, maxLen: nat)
    requires HasPacket(s, maxLen)
    requires
      var n := HEADER + LenField(s);
      var o := open(s[..n]);
      && valid == o.valid && now == (if valid then s[n..] else o.plain + s[n..])
      && (valid ==> payload == Payload(o.plain))
    ensures TurnIs(if valid then Delivers(payload) else Closes, s, now, open, maxLen)
  {
    FramesTurn(s, open, maxLen);
  }

  /** The tests of the loop body, in the order of the source; `go` if a whole packet is there. */
  method TestHeader(recvQ: CRingBuffer, maxLen: nat) returns (go: bool, bad: bool, len: nat)
    requires recvQ.Valid()
    ensures
      var c := recvQ.Contents();
      && go == HasPacket(c, maxLen)
      && bad == (|c| >= HEADER && BadHeader(c, maxLen))
      && (go ==> len == LenField(c))
  {
    if recvQ.Size() < HEADER {
      return false, false, 0;
    }
    var _, header := recvQ.Peek(HEADER);
    LenFieldPrefix(header, recvQ.Contents());
    len := LenField(header);
    if header[0] != PACKET_CODE {
      return false, true, len;
    }
    if len > maxLen {
      return false, true, len;
    }
    if len > recvQ.Size() {
      return false, false, len;
    }
    if recvQ.Size() < len + HEADER {
      return false, false, len;
    }
    return true, false, len;
  }

  /** The body of the framing loop: the tests, then at most one packet. */
  method HandlerTurn(recvQ: CRingBuffer, key: byte, maxLen: nat, ghost open: Opener) returns (t: Turn)
    requires recvQ.Valid() && OpensWith(open, key)
    modifies recvQ, recvQ.buffer
    ensures recvQ.Valid()
    ensures t.Delivers? ==> recvQ.Size() < old(recvQ.Size())
    ensures TurnIs(t, old(recvQ.Contents()), recvQ.Contents(), open, maxLen)
  {
    ghost var c := recvQ.Contents();
    var go, bad, len := TestHeader(recvQ, maxLen);
    if !go {
      TurnStops(c, open, maxLen);
      return if bad then Closes else Waits;
    }
    var valid, payload := TakePacket(recvQ, key, len, open);
    TurnTakes(c, valid, payload, recvQ.Contents(), open, maxLen);
    t := if valid then Delivers(payload) else Closes;
  }

  /** `RecvHandler<NetHeader>` on the ring of a base-group session. */
  method RecvHandler(recvQ: CRingBuffer, key: byte, maxLen: nat, ghost open: Opener)
      returns (delivered: seq<seq<byte>>, closed: bool)
    requires recvQ.Valid() && OpensWith(open, key)
    modifies recvQ, recvQ.buffer
    ensures recvQ.Valid()
    ensures Pass(delivered, recvQ.Contents(), closed) == Frames(old(recvQ.Contents()), open, maxLen)
  {
    delivered, closed := [], false;
    ghost var whole := Frames(recvQ.Contents(), open, maxLen);
    assert whole == Prepend([], whole);
    while true
      invariant recvQ.Valid() && !closed
      invariant whole == Prepend(delivered, Frames(recvQ.Contents(), open, maxLen))
      decreases recvQ.Size()
    {
      var t := HandlerTurn(recvQ, key, maxLen, open);
      if t.Delivers? {
        PrependTwice(delivered, [t.payload], Frames(recvQ.Contents(), open, maxLen));
        delivered := delivered + [t.payload];
      } else {
        closed := t.Closes?;
        break;
      }
    }
  }

  /** `RecvExecutable::Execute` for such a session: the completed bytes join the ring, the loop runs, and there
      is room for the next receive. */
  method Execute(recvQ: CRingBuffer, r: Regions, chunk: seq<byte>, key: byte, maxLen: nat, ghost open: Opener)
      returns (delivered: seq<seq<byte>>, closed: bool)
    requires recvQ.Valid() && recvQ.Offered(r) && |chunk| <= r.len0 + r.len1 && OpensWith(open, key)
    modifies recvQ, recvQ.buffer
    ensures recvQ.Valid()
    ensures Pass(delivered, recvQ.Contents(), closed) == Frames(old(recvQ.Contents()) + chunk, open, maxLen)
    ensures !closed && maxLen <= SIZE - 1 - HEADER ==> recvQ.RecvRegions().len0 + recvQ.RecvRegions().len1 > 0
  {
    ghost var stream := recvQ.Contents() + chunk;
    recvQ.CompleteRecv(r, chunk);
    delivered, closed := RecvHandler(recvQ, key, maxLen, open);
    if !closed {
      RestIsShort(stream, open, maxLen);
    }
  }

  /** Each piece fits what the ring has free when it arrives. */
  predicate Fits(before: Pass, chunks: seq<seq<byte>>, open: Opener, maxLen: nat)
    decreases |chunks|
  {
    chunks == [] ||
    (|chunks[0]| < SIZE - |before.rest| &&
     var next := Frames(before.rest + chunks[0], open, maxLen);
     (next.closed || Fits(Prepend(before.delivered, next), chunks[1..], open, maxLen)))
  }

  /** A connection: completions are processed until they run out or the session closes. The ring may
      start anywhere, so packets fall across the end of the array wherever they happen to. */
  method Connection(recvQ: CRingBuffer, chunks: seq<seq<byte>>, key: byte, maxLen: nat, ghost open: Opener)
      returns (delivered: seq<seq<byte>>, closed: bool)
    requires recvQ.Valid() && recvQ.Contents() == [] && OpensWith(open, key)
    requires Fits(Pass([], [], false), chunks, open, maxLen)
    modifies recvQ, recvQ.buffer
    ensures recvQ.Valid()
    ensures
      var whole := Frames(Concat(chunks), open, maxLen);
      delivered == whole.delivered && closed == whole.closed
    ensures !closed ==> recvQ.Contents() == Frames(Concat(chunks), open, maxLen).rest
  {
    ChunkingIndependence([], chunks, open, maxLen);
    assert [] + Concat(chunks) == Concat(chunks);
    ghost var whole := Frames(Concat(chunks), open, maxLen);
    delivered, closed := [], false;
    for k := 0 to |chunks|
      invariant recvQ.Valid() && !closed
      invariant Fits(Pass(delivered, recvQ.Contents(), false), chunks[k..], open, maxLen)
      invariant Arrive(Pass(delivered, recvQ.Contents(), false), chunks[k..], open, maxLen) == whole
    {
      assert chunks[k..][1..] == chunks[k + 1..];
      ghost var before := Pass(delivered, recvQ.Contents(), false);
      var more;
      more, closed := Execute(recvQ, recvQ.RecvRegions(), chunks[k], key, maxLen, open);
      delivered := delivered + more;
      if closed {
        ArriveClosed(Pass(delivered, recvQ.Contents(), true), chunks[k + 1..], open, maxLen);
        return;
      }
    }
  }

  lemma {:induction false} ArriveClosed(before: Pass, chunks: seq<seq<byte>>, open: Opener, maxLen: nat)
    requires before.closed
    ensures
      var after := Arrive(before, chunks, open, maxLen);
      after.closed && after.delivered == before.delivered
    decreases |chunks|
  {
    if chunks != [] {
      ArriveClosed(Pass(before.delivered, before.rest + chunks[0], true), chunks[1..], open, maxLen);
    }
  }
}
