/** Packing the queued chunks and a SACK into an SCTP packet, and walking the chunks of one that
    was received. */
module SctpPacket {
  import opened Bytes
  import opened Crc32
  import opened SctpReceive

  const CHUNK_HEADER_SIZE := 4

  function Rounded(n: nat): (r: nat)
    ensures n <= r < n + 4 && r % 4 == 0
  {
    (n + 3) / 4 * 4
  }

  function Padded(c: seq<byte>): (b: seq<byte>)
    ensures |b| == Rounded(|c|)
  {
    c + Zeros(Rounded(|c|) - |c|)
  }

  function Body(chunks: seq<seq<byte>>): seq<byte> {
    if chunks == [] then [] else Body(chunks[..|chunks| - 1]) + Padded(chunks[|chunks| - 1])
  }

  // The packet before its checksum is known.
  function Unsummed(localPort: uint16, remotePort: uint16, tag: uint32, chunks: seq<seq<byte>>, sack: seq<byte>): (p: seq<byte>)
    ensures |p| == HEADER_SIZE + |Body(chunks)| + |sack|
  {
    Be16(localPort) + Be16(remotePort) + Be32(tag) + Zeros(4) + Body(chunks) + sack
  }

  function WithChecksum(p: seq<byte>): (q: seq<byte>)
    requires |p| >= HEADER_SIZE
    ensures |q| == |p|
  {
    p[..8] + WordBytes(SctpCrc(p)) + p[12..]
  }

  // --- the second half of send_acks ---

  method CopyTo(a: array<byte>, at: nat, c: seq<byte>)
    requires at + |c| <= a.Length
    modifies a
    ensures a[at..at + |c|] == c
    ensures forall k | 0 <= k < a.Length && !(at <= k < at + |c|) :: a[k] == old(a[k])
  {
    for i := 0 to |c|
      invariant a[at..at + i] == c[..i]
      invariant forall k | 0 <= k < a.Length && !(at <= k < at + i) :: a[k] == old(a[k])
    {
      a[at + i] := c[i];
      assert a[at..at + i + 1] == a[at..at + i] + [c[i]];
    }
  }

  method TotalSize(chunks: seq<seq<byte>>, sack: seq<byte>) returns (total: nat)
    ensures total == HEADER_SIZE + |Body(chunks)| + |sack|
  {
    total := HEADER_SIZE;
    for i := 0 to |chunks|
      invariant total == HEADER_SIZE + |Body(chunks[..i])|
    {
      assert chunks[..i + 1][..i] == chunks[..i];
      total := total + Rounded(|chunks[i]|);
    }
    assert chunks[..|chunks|] == chunks;
    total := total + |sack|;
  }

  method WriteChunk(reply: array<byte>, ptr: nat, c: seq<byte>) returns (next: nat)
    requires ptr + Rounded(|c|) <= reply.Length
    requires forall k | ptr <= k < reply.Length :: reply[k] == 0
    modifies reply
    ensures next == ptr + Rounded(|c|) && reply[ptr..next] == Padded(c)
    ensures forall k | 0 <= k < ptr :: reply[k] == old(reply[k])
    ensures forall k | next <= k < reply.Length :: reply[k] == 0
  {
    CopyTo(reply, ptr, c);
    next := ptr + Rounded(|c|);
    assert reply[ptr + |c|..next] == Zeros(next - ptr - |c|);
    assert reply[ptr..next] == reply[ptr..ptr + |c|] + reply[ptr + |c|..next];
  }

  method WriteChunks(reply: array<byte>, chunks: seq<seq<byte>>) returns (ptr: nat)
    requires reply.Length >= HEADER_SIZE + |Body(chunks)|
    requires forall k | HEADER_SIZE <= k < reply.Length :: reply[k] == 0
    modifies reply
    ensures ptr == HEADER_SIZE + |Body(chunks)| && reply[HEADER_SIZE..ptr] == Body(chunks)
    ensures forall k | 0 <= k < HEADER_SIZE :: reply[k] == old(reply[k])
  {
    ptr := HEADER_SIZE;
    for i := 0 to |chunks|
      invariant HEADER_SIZE <= ptr == HEADER_SIZE + |Body(chunks[..i])| <= reply.Length
      invariant reply[HEADER_SIZE..ptr] == Body(chunks[..i])
      invariant forall k | 0 <= k < HEADER_SIZE :: reply[k] == old(reply[k])
      invariant forall k | ptr <= k < reply.Length :: reply[k] == 0
    {
      BodyGrows(chunks, i);
      ghost var before := reply[HEADER_SIZE..ptr];
      var next := WriteChunk(reply, ptr, chunks[i]);
      assert reply[HEADER_SIZE..ptr] == before;
      TwoParts(reply[..], HEADER_SIZE, ptr, next);
      ptr := next;
    }
    assert chunks[..|chunks|] == chunks;
  }

  lemma TwoParts(b: seq<byte>, from: nat, mid: nat, to: nat)
    requires from <= mid <= to <= |b|
    ensures b[from..to] == b[from..mid] + b[mid..to]
  {
  }

  lemma BodyGrows(chunks: seq<seq<byte>>, i: nat)
    requires i < |chunks|
    ensures Body(chunks[..i + 1]) == Body(chunks[..i]) + Padded(chunks[i])
    ensures |Body(chunks[..i + 1])| <= |Body(chunks)|
    decreases |chunks|
  {
    assert chunks[..i + 1][..i] == chunks[..i];
    if i + 1 < |chunks| {
      var fewer := chunks[..|chunks| - 1];
      assert fewer[..i + 1] == chunks[..i + 1];
      BodyGrows(fewer, i);
    } else {
      assert chunks[..i + 1] == chunks;
    }
  }

  lemma UnsummedFromParts(p: seq<byte>, ptr: nat, localPort: uint16, remotePort: uint16, tag: uint32,
                          chunks: seq<seq<byte>>, sack: seq<byte>)
    requires ptr == HEADER_SIZE + |Body(chunks)| && |p| == ptr + |sack|
    requires p[0..2] == Be16(localPort) && p[2..4] == Be16(remotePort) && p[4..8] == Be32(tag)
    requires p[8..12] == Zeros(4) && p[12..ptr] == Body(chunks) && p[ptr..] == sack
    ensures p == Unsummed(localPort, remotePort, tag, chunks, sack)
  {
    assert p == p[0..2] + p[2..4] + p[4..8] + p[8..12] + p[12..ptr] + p[ptr..];
  }

  method BuildUnsummed(localPort: uint16, remotePort: uint16, tag: uint32, chunks: seq<seq<byte>>, sack: seq<byte>)
    returns (reply: array<byte>)
    ensures fresh(reply) && reply[..] == Unsummed(localPort, remotePort, tag, chunks, sack)
  {
    var total := TotalSize(chunks, sack);
    reply := new byte[total](_ => 0);
    var ptr := WriteChunks(reply, chunks);
    CopyTo(reply, ptr, sack);
    SetBe16(localPort, reply, 0);
    SetBe16(remotePort, reply, 2);
    SetBe32(tag, reply, 4);
    assert reply[8..12] == Zeros(4);
    UnsummedFromParts(reply[..], ptr, localPort, remotePort, tag, chunks, sack);
  }

  method BuildReply(localPort: uint16, remotePort: uint16, tag: uint32, chunks: seq<seq<byte>>, sack: seq<byte>)
    returns (reply: array<byte>)
    ensures reply[..] == WithChecksum(Unsummed(localPort, remotePort, tag, chunks, sack))
  {
    reply := BuildUnsummed(localPort, remotePort, tag, chunks, sack);
    ghost var p := reply[..];
    var crc := Crc32Sctp(reply[..]);
    var stored := WordBytes(crc);
    CopyTo(reply, 8, stored);
    assert reply[..] == p[..8] + stored + p[12..];
  }

  class SctpDispatch {
    const localPort: uint16
    const remotePort: uint16
    const received: Association
    var tag: uint32
    var chunks: seq<seq<byte>>

    constructor (localPort: uint16, remotePort: uint16)
      ensures this.localPort == localPort && this.remotePort == remotePort && fresh(received)
      ensures received.Value() == Received([], 0, []) && chunks == []
    {
      this.localPort, this.remotePort, tag, chunks := localPort, remotePort, 0, [];
      received := new Association();
    }

    // The function that connect hands to the data channels.
    method AddChunk(tsn: uint32, chunk: seq<byte>)
      modifies this`chunks, received
      ensures received.Value() == Added(old(received.Value()), tsn)
      ensures chunks == old(chunks) + if chunk == [] then [] else [chunk]
    {
      received.AddChunk(tsn);
      if |chunk| > 0 {
        chunks := chunks + [chunk];
      }
    }

    /** The packet holds the queued chunks, and a SACK that says what has been received since INIT. */
    method SendAcks() returns (reply: array<byte>, ghost blocks: seq<Block>)
      requires AllBeyond(Acked(received.Value()))
      modifies this`chunks, received
      ensures received.Value() == Acked(old(received.Value())) && chunks == []
      ensures AreRuns(blocks, received.tsns, received.last)
      ensures var sack := SackBytes(received.last, blocks, old(received.dups));
              reply[..] == WithChecksum(Unsummed(localPort, remotePort, tag, old(chunks), sack))
    {
      received.Advance();
      AdvanceKeepsDups(old(received.Value()));
      var runs := received.GapBlocks();
      var sack := received.BuildSack(runs);
      reply := BuildReply(localPort, remotePort, tag, chunks, sack[..]);
      blocks := runs;
      chunks := [];
      received.dups := [];
    }
  }

  lemma {:induction false} AdvanceKeepsDups(s: Received)
    ensures Advanced(s).dups == s.dups
    decreases |s.tsns|
  {
    if s.tsns != [] && s.tsns[0] == SctpReceive.Next(s.last) {
      AdvanceKeepsDups(s.(last := SctpReceive.Next(s.last), tsns := s.tsns[1..]));
    }
  }

  // --- the walk of parse_sctp_chunks ---

  // ok: the walk reached the end.  chunks: the ones it handed on, in order.
  datatype Walked = Walked(ok: bool, chunks: seq<seq<byte>>)

  function ChunkLength(msg: seq<byte>, start: nat): uint16
    requires start + CHUNK_HEADER_SIZE <= |msg|
  {
    FromBe16(msg[start + 2..])
  }

  function Walk(msg: seq<byte>, start: nat): Walked
    decreases |msg| - start
  {
    if start + CHUNK_HEADER_SIZE > |msg| then Walked(true, [])
    else
      var len := ChunkLength(msg, start);
      if len < CHUNK_HEADER_SIZE || start + len > |msg| then Walked(false, [])
      else Prepend([msg[start..start + len]], Walk(msg, start + Rounded(len)))
  }

  function Prepend(chunks: seq<seq<byte>>, w: Walked): Walked {
    w.(chunks := chunks + w.chunks)
  }

  lemma PrependTwice(a: seq<seq<byte>>, b: seq<seq<byte>>, w: Walked)
    ensures Prepend(a, Prepend(b, w)) == Prepend(a + b, w)
  {
  }

  // The walk has handed on chunks and is at start.
  predicate Reached(msg: seq<byte>, start: nat, chunks: seq<seq<byte>>) {
    Walk(msg, HEADER_SIZE) == Prepend(chunks, Walk(msg, start))
  }

  lemma WalkOn(msg: seq<byte>, start: nat, chunks: seq<seq<byte>>, len: uint16)
    requires start + CHUNK_HEADER_SIZE <= |msg| && len == ChunkLength(msg, start)
    requires CHUNK_HEADER_SIZE <= len && start + len <= |msg| && Reached(msg, start, chunks)
    ensures Reached(msg, start + Rounded(len), chunks + [msg[start..start + len]])
  {
    PrependTwice(chunks, [msg[start..start + len]], Walk(msg, start + Rounded(len)));
  }

  lemma WalkEnds(msg: seq<byte>, start: nat, chunks: seq<seq<byte>>)
    requires Reached(msg, start, chunks) && start + CHUNK_HEADER_SIZE > |msg|
    ensures Walked(true, chunks) == Walk(msg, HEADER_SIZE)
  {
  }

  lemma WalkFails(msg: seq<byte>, start: nat, chunks: seq<seq<byte>>, len: uint16)
    requires start + CHUNK_HEADER_SIZE <= |msg| && len == ChunkLength(msg, start)
    requires (len < CHUNK_HEADER_SIZE || start + len > |msg|) && Reached(msg, start, chunks)
    ensures Walked(false, chunks) == Walk(msg, HEADER_SIZE)
  {
  }

  method ParseChunks(msg: seq<byte>) returns (ok: bool, chunks: seq<seq<byte>>)
    ensures Walked(ok, chunks) == Walk(msg, HEADER_SIZE)
  {
    var start := HEADER_SIZE;
    chunks := [];
    while start + CHUNK_HEADER_SIZE <= |msg|
      invariant Reached(msg, start, chunks)
      decreases |msg| - start
    {
      var len := ChunkLength(msg, start);
      var rounded := Rounded(len);
      if len < CHUNK_HEADER_SIZE {
        WalkFails(msg, start, chunks, len);
        return false, chunks;
      }
      if start + len <= |msg| {
        WalkOn(msg, start, chunks, len);
        chunks := chunks + [msg[start..start + len]];
      } else {
        WalkFails(msg, start, chunks, len);
        return false, chunks;
      }
      start := start + rounded;
    }
    WalkEnds(msg, start, chunks);
    ok := true;
  }

  // The test of recv_msg.
  predicate PassesChecksum(msg: seq<byte>) {
    |msg| >= HEADER_SIZE && WordBytes(SctpCrc(msg)) == msg[8..12]
  }

  // --- packing and walking ---

  // A chunk that carries its own size.
  predicate OwnSize(c: seq<byte>) {
    CHUNK_HEADER_SIZE <= |c| && FromBe16(c[2..]) == |c|
  }

  lemma LengthInPlace(msg: seq<byte>, start: nat, c: seq<byte>)
    requires |c| >= CHUNK_HEADER_SIZE && start + |c| <= |msg| && msg[start..start + |c|] == c
    ensures ChunkLength(msg, start) == FromBe16(c[2..])
  {
    assert msg[start + 2] == c[2] && msg[start + 3] == c[3];
  }

  function BodyFrom(chunks: seq<seq<byte>>): seq<byte> {
    if chunks == [] then [] else Padded(chunks[0]) + BodyFrom(chunks[1..])
  }

  lemma {:induction false} BodyIsBodyFrom(chunks: seq<seq<byte>>)
    ensures Body(chunks) == BodyFrom(chunks)
  {
    if chunks != [] {
      BodySplits([chunks[0]], chunks[1..]);
      assert [chunks[0]] + chunks[1..] == chunks;
      assert Body([chunks[0]]) == Padded(chunks[0]);
      BodyIsBodyFrom(chunks[1..]);
    }
  }

  lemma {:induction false} BodySplits(a: seq<seq<byte>>, b: seq<seq<byte>>)
    ensures Body(a + b) == Body(a) + Body(b)
  {
    if b == [] {
      assert a + b == a;
    } else {
      assert (a + b)[..|a + b| - 1] == a + b[..|b| - 1];
      BodySplits(a, b[..|b| - 1]);
    }
  }

  // From start on the message holds the chunks and the SACK.
  predicate HoldsFrom(msg: seq<byte>, start: nat, chunks: seq<seq<byte>>, sack: seq<byte>) {
    start <= |msg| && msg[start..] == BodyFrom(chunks) + sack
  }

  lemma NextChunk(msg: seq<byte>, start: nat, chunks: seq<seq<byte>>, sack: seq<byte>)
    requires chunks != [] && HoldsFrom(msg, start, chunks, sack)
    ensures var c := chunks[0];
            && start + Rounded(|c|) <= |msg| && msg[start..start + |c|] == c
            && HoldsFrom(msg, start + Rounded(|c|), chunks[1..], sack)
  {
    var c := chunks[0];
    var n := Rounded(|c|);
    assert msg[start..] == Padded(c) + (BodyFrom(chunks[1..]) + sack);
    assert msg[start..][..|c|] == Padded(c)[..|c|] == c;
    assert msg[start + n..] == msg[start..][n..];
  }

  lemma LastIsSack(msg: seq<byte>, start: nat, sack: seq<byte>)
    requires HoldsFrom(msg, start, [], sack) && OwnSize(sack) && |sack| % 4 == 0
    ensures Walk(msg, start) == Walked(true, [sack])
  {
    assert msg[start..start + |sack|] == msg[start..] == sack;
    LengthInPlace(msg, start, sack);
    assert Walk(msg, start + |sack|) == Walked(true, []);
  }

  predicate AllOwnSize(chunks: seq<seq<byte>>) {
    forall i | 0 <= i < |chunks| :: OwnSize(chunks[i])
  }

  lemma AllOwnSizeSplits(chunks: seq<seq<byte>>)
    requires chunks != []
    ensures AllOwnSize(chunks) <==> OwnSize(chunks[0]) && AllOwnSize(chunks[1..])
  {
    assert forall i | 0 < i < |chunks| :: chunks[i] == chunks[1..][i - 1];
    assert forall i | 0 <= i < |chunks[1..]| :: chunks[1..][i] == chunks[i + 1];
  }

  lemma WalkOne(msg: seq<byte>, start: nat, c: seq<byte>)
    requires OwnSize(c) && start + |c| <= |msg| && msg[start..start + |c|] == c
    ensures Walk(msg, start) == Prepend([c], Walk(msg, start + Rounded(|c|)))
  {
    LengthInPlace(msg, start, c);
  }

  /** The walk hands on exactly the chunks that were packed, in order, and then the SACK, if and
      only if each of the chunks carries its own size. */
  lemma {:induction false} WalkFindsChunks(msg: seq<byte>, start: nat, chunks: seq<seq<byte>>, sack: seq<byte>)
    requires HoldsFrom(msg, start, chunks, sack) && OwnSize(sack) && |sack| % 4 == 0
    ensures Walk(msg, start) == Walked(true, chunks + [sack]) <==> AllOwnSize(chunks)
    decreases |chunks|
  {
    if chunks == [] {
      LastIsSack(msg, start, sack);
    } else {
      AllOwnSizeSplits(chunks);
      NextChunk(msg, start, chunks, sack);
      var next := start + Rounded(|chunks[0]|);
      WalkFindsChunks(msg, next, chunks[1..], sack);
      WalkFindsFirst(msg, start, next, chunks[0], chunks[1..] + [sack]);
      assert chunks + [sack] == [chunks[0]] + (chunks[1..] + [sack]);
    }
  }

  lemma WalkFindsFirst(msg: seq<byte>, start: nat, next: nat, c: seq<byte>, rest: seq<seq<byte>>)
    requires start + |c| <= |msg| && msg[start..start + |c|] == c && next == start + Rounded(|c|)
    ensures Walk(msg, start) == Walked(true, [c] + rest) <==> OwnSize(c) && Walk(msg, next) == Walked(true, rest)
  {
    if OwnSize(c) {
      WalkOne(msg, start, c);
      SameTail(c, Walk(msg, next), rest);
    } else {
      WalkMissesFirst(msg, start, c, rest);
    }
  }

  lemma WalkMissesFirst(msg: seq<byte>, start: nat, c: seq<byte>, rest: seq<seq<byte>>)
    requires !OwnSize(c)
    ensures Walk(msg, start) != Walked(true, [c] + rest)
  {
    if Walk(msg, start).chunks != [] && Walk(msg, start).chunks[0] == c {
      FirstHasOwnSize(msg, start, c);
    }
  }

  lemma SameTail(c: seq<byte>, w: Walked, rest: seq<seq<byte>>)
    ensures Prepend([c], w) == Walked(true, [c] + rest) <==> w == Walked(true, rest)
  {
    assert Prepend([c], w).chunks[1..] == w.chunks && ([c] + rest)[1..] == rest;
  }

  // What the walk hands on carries its own size.
  lemma FirstHasOwnSize(msg: seq<byte>, start: nat, c: seq<byte>)
    requires Walk(msg, start).chunks != [] && Walk(msg, start).chunks[0] == c
    ensures OwnSize(c)
  {
    var len := ChunkLength(msg, start);
    assert c == msg[start..start + len];
    LengthInPlace(msg, start, c);
  }

  /** What is packed is what the peer's walk finds, and the packet passes the checksum test. */
  lemma PackThenWalk(localPort: uint16, remotePort: uint16, tag: uint32, chunks: seq<seq<byte>>, sack: seq<byte>)
    requires OwnSize(sack) && |sack| % 4 == 0
    ensures var packet := WithChecksum(Unsummed(localPort, remotePort, tag, chunks, sack));
            && PassesChecksum(packet)
            && (Walk(packet, HEADER_SIZE) == Walked(true, chunks + [sack]) <==> AllOwnSize(chunks))
  {
    var p := Unsummed(localPort, remotePort, tag, chunks, sack);
    ChecksumPasses(p);
    BodyIsBodyFrom(chunks);
    assert WithChecksum(p)[HEADER_SIZE..] == p[HEADER_SIZE..] == Body(chunks) + sack;
    WalkFindsChunks(WithChecksum(p), HEADER_SIZE, chunks, sack);
  }

  /** A reader of the finished packet gets the ports and the tag back from its common header, and the
      twelfth byte is followed by the chunks. */
  lemma HeaderReadsBack(localPort: uint16, remotePort: uint16, tag: uint32, chunks: seq<seq<byte>>, sack: seq<byte>)
    ensures var packet := WithChecksum(Unsummed(localPort, remotePort, tag, chunks, sack));
            && FromBe16(packet) == localPort && FromBe16(packet[2..]) == remotePort && FromBe32(packet[4..]) == tag
            && packet[12..] == Body(chunks) + sack
  {
    var p := Unsummed(localPort, remotePort, tag, chunks, sack);
    var packet := WithChecksum(p);
    RoundTrip16(localPort);
    RoundTrip16(remotePort);
    RoundTrip32(tag);
    assert p[..8] == Be16(localPort) + Be16(remotePort) + Be32(tag) && p[12..] == Body(chunks) + sack;
    assert packet[..8] == p[..8] && packet[12..] == p[12..];
    FieldsInFront(packet, Be16(localPort), Be16(remotePort), Be32(tag));
  }

  lemma FieldsInFront(packet: seq<byte>, a: seq<byte>, b: seq<byte>, c: seq<byte>)
    requires |a| == 2 && |b| == 2 && |c| == 4 && |packet| >= 8 && packet[..8] == a + b + c
    ensures FromBe16(packet) == FromBe16(a) && FromBe16(packet[2..]) == FromBe16(b) && FromBe32(packet[4..]) == FromBe32(c)
  {
    assert forall i | 0 <= i < 8 :: packet[i] == packet[..8][i];
  }

  // The checksum is computed as if its own field were zero, so storing it does not change it.
  lemma ChecksumPasses(p: seq<byte>)
    requires |p| >= HEADER_SIZE
    ensures PassesChecksum(WithChecksum(p))
  {
    var q := WithChecksum(p);
    assert Zeroed(q) == Zeroed(p);
    SameZeroed(p, q);
    assert q[8..12] == WordBytes(SctpCrc(p));
  }

  lemma SameZeroed(p: seq<byte>, q: seq<byte>)
    requires |p| >= HEADER_SIZE && |q| >= HEADER_SIZE && Zeroed(p) == Zeroed(q)
    ensures SctpCrc(p) == SctpCrc(q)
  {
  }

  // --- the chunks that are queued in answer to a packet ---

  const CHNK_INIT_ACK: byte := 2
  const CHNK_HEARTBEAT_ACK: byte := 5
  const CHNK_COOKIE_ACK: byte := 11
  const OPT_COOKIE: uint16 := 7

  function HeartbeatAck(chunk: seq<byte>): seq<byte>
    requires |chunk| >= CHUNK_HEADER_SIZE
  {
    chunk[0 := CHNK_HEARTBEAT_ACK]
  }

  function CookieAck(): seq<byte> {
    [CHNK_COOKIE_ACK, 0] + Be16(4)
  }

  // The INIT with an empty cookie behind it.
  function InitAck(init: seq<byte>): seq<byte>
    requires |init| >= CHUNK_HEADER_SIZE
  {
    var length := Be16((Rounded(|init|) + 4) % 0x1_0000);
    [CHNK_INIT_ACK, init[1]] + length + init[4..] + Zeros(Rounded(|init|) - |init|) + Be16(OPT_COOKIE) + Be16(4)
  }

  lemma {:induction false} WalkedOwnSize(msg: seq<byte>, start: nat, i: nat)
    requires i < |Walk(msg, start).chunks|
    ensures OwnSize(Walk(msg, start).chunks[i])
    decreases i
  {
    var len := ChunkLength(msg, start);
    if i == 0 {
      FirstHasOwnSize(msg, start, Walk(msg, start).chunks[0]);
    } else {
      WalkedOwnSize(msg, start + Rounded(len), i - 1);
    }
  }

  /** Whatever chunk a packet makes the walk hand on, the answers to it carry their own size; an
      INIT_ACK does so as long as the INIT left room for the cookie. */
  lemma AnswersOwnSize(msg: seq<byte>, i: nat)
    requires i < |Walk(msg, HEADER_SIZE).chunks|
    ensures var c := Walk(msg, HEADER_SIZE).chunks[i];
            && |c| >= CHUNK_HEADER_SIZE && OwnSize(HeartbeatAck(c)) && OwnSize(CookieAck())
            && (OwnSize(InitAck(c)) <==> |c| <= 65528)
  {
    WalkedOwnSize(msg, HEADER_SIZE, i);
    var c := Walk(msg, HEADER_SIZE).chunks[i];
    RoundTrip16(4);
    assert CookieAck()[2..] == Be16(4);
    assert HeartbeatAck(c)[2..] == c[2..];
    InitAckSize(c);
  }

  /** What a peer reads in the answers to a chunk c: a heartbeat comes back with nothing but its type
      changed, and an INIT with its type, its length, and behind it and its padding a cookie of no
      bytes. */
  lemma AnswersSay(c: seq<byte>, k: nat)
    requires CHUNK_HEADER_SIZE <= |c| <= 65528
    ensures HeartbeatAck(c)[0] == 5 && |HeartbeatAck(c)| == |c| && HeartbeatAck(c)[1..] == c[1..]
    ensures CookieAck() == [11, 0, 0, 4]
    ensures var ack := InitAck(c);
            && |ack| == Rounded(|c|) + 4 && ack[0] == 2 && ack[1] == c[1] && FromBe16(ack[2..]) == |ack|
            && (4 <= k < Rounded(|c|) ==> ack[k] == if k < |c| then c[k] else 0)
            && FromBe16(ack[Rounded(|c|)..]) == 7 && FromBe16(ack[Rounded(|c|) + 2..]) == 4
  {
    var ack, n := InitAck(c), Rounded(|c|);
    RoundTrip16(n + 4);
    RoundTrip16(OPT_COOKIE);
    RoundTrip16(4);
    Shifts(4);
    assert ack[2..4] == Be16(n + 4) && ack[2..][..2] == ack[2..4];
    assert ack[n..] == Be16(OPT_COOKIE) + Be16(4);
    assert ack[n + 2..] == Be16(4);
  }

  lemma InitAckSize(init: seq<byte>)
    requires CHUNK_HEADER_SIZE <= |init| < 0x1_0000
    ensures OwnSize(InitAck(init)) <==> |init| <= 65528
  {
    var size := Rounded(|init|) + 4;
    RoundTrip16(size % 0x1_0000);
    assert InitAck(init)[2] == Be16(size % 0x1_0000)[0] && InitAck(init)[3] == Be16(size % 0x1_0000)[1];
    assert |InitAck(init)| == size;
    assert size < 0x1_0000 <==> |init| <= 65528;
  }

  /** The SACK carries its own size as long as that fits its length field. */
  lemma SackOwnSize(last: uint32, blocks: seq<Block>, dups: seq<uint32>)
    ensures |SackBytes(last, blocks, dups)| % 4 == 0
    ensures OwnSize(SackBytes(last, blocks, dups)) <==> |blocks| + |dups| < 16380
  {
    SackLength(last, blocks, dups);
    OwnSizeIfItFits(SackBytes(last, blocks, dups), 4 + |blocks| + |dups|);
  }

  lemma OwnSizeIfItFits(c: seq<byte>, words: nat)
    requires |c| == 4 * words >= CHUNK_HEADER_SIZE && FromBe16(c[2..]) == (4 * words) % 0x1_0000
    ensures |c| % 4 == 0 && (OwnSize(c) <==> words < 0x4000)
  {
  }

  lemma SackLength(last: uint32, blocks: seq<Block>, dups: seq<uint32>)
    ensures var sack, words := SackBytes(last, blocks, dups), 4 + |blocks| + |dups|;
            |sack| == 4 * words && FromBe16(sack[2..]) == (4 * words) % 0x1_0000
  {
    var size := SACK_HEADER_SIZE + 4 * |blocks| + 4 * |dups|;
    var header := SackHeader(last, |blocks|, |dups|);
    HeaderLength(last, |blocks|, |dups|);
    LengthInHeader(header, BlockBytes(blocks) + DupBytes(dups), size % 0x1_0000);
    assert SackBytes(last, blocks, dups) == header + (BlockBytes(blocks) + DupBytes(dups));
  }

  lemma HeaderLength(last: uint32, blocks: nat, dups: nat)
    ensures SackHeader(last, blocks, dups)[2..4] == Be16((SACK_HEADER_SIZE + 4 * blocks + 4 * dups) % 0x1_0000)
  {
  }

  lemma LengthInHeader(header: seq<byte>, rest: seq<byte>, length: uint16)
    requires |header| >= 4 && header[2..4] == Be16(length)
    ensures FromBe16((header + rest)[2..]) == length
  {
    RoundTrip16(length);
    assert header[2] == header[2..4][0] && header[3] == header[2..4][1];
  }
}
