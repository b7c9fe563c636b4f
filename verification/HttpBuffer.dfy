/** The buffer of http_server's request loop, which the parser, the handlers and the socket share.
    The loop over the buffer is proved to do what a loop without one does, which takes the bytes it
    hands on straight out of what the client sends. */
module HttpBuffer {
  import opened Bytes

  const BUF_SIZE := 8192

  function Min(a: nat, b: nat): nat {
    if a < b then a else b
  }

  // One read of a handler: how much it asks for, and how much the socket has by then.
  datatype BodyRead = BodyRead(len: nat, has: nat)

  // One round of the loop.  has: how much the socket has if the loop reads.  parsed: how far the
  // parser gets.  complete: whether that completes a message.  A read that gets nothing throws, and
  // so may a handler; keepAlive is false then too.
  datatype Round = Round(has: nat, parsed: nat, complete: bool, upgrade: bool, body: seq<BodyRead>, keepAlive: bool)

  // What is handed on, and to whom.
  datatype Piece = ToParser(bytes: seq<byte>) | ToHandler(bytes: seq<byte>)

  // --- the loop without a buffer ---

  // at: what the client sends up to here has been handed on.  ahead: so much has been read beyond
  // that.  room: so much more may be read before the message has to be complete.
  datatype Plain = Plain(at: nat, ahead: nat, room: nat, open: bool, log: seq<Piece>)

  const START := Plain(0, 0, BUF_SIZE, true, [])

  predicate Fits(stream: seq<byte>, p: Plain) {
    p.at + p.ahead <= |stream|
  }

  function Fetched(stream: seq<byte>, p: Plain, has: nat): (r: Plain)
    requires Fits(stream, p)
    ensures Fits(stream, r)
  {
    if p.ahead > 0 then p
    else
      var n := Min(p.room, Min(has, |stream| - p.at));
      p.(ahead := n, room := p.room - n)
  }

  function Parsed(stream: seq<byte>, p: Plain, n: nat): (r: Plain)
    requires Fits(stream, p) && n <= p.ahead
    ensures Fits(stream, r)
  {
    p.(at := p.at + n, ahead := p.ahead - n, log := p.log + [ToParser(stream[p.at..p.at + n])])
  }

  // A handler gets first what has been read ahead, then what the socket has.
  function BodyTaken(stream: seq<byte>, p: Plain, r: BodyRead): (p': Plain)
    requires Fits(stream, p)
    ensures Fits(stream, p')
  {
    var n := Min(r.len, if p.ahead > 0 then p.ahead else Min(r.has, |stream| - p.at));
    p.(at := p.at + n, ahead := if p.ahead > 0 then p.ahead - n else 0, log := p.log + [ToHandler(stream[p.at..p.at + n])])
  }

  function Handled(stream: seq<byte>, p: Plain, body: seq<BodyRead>): (r: Plain)
    requires Fits(stream, p)
    ensures Fits(stream, r)
  {
    if body == [] then p else BodyTaken(stream, Handled(stream, p, body[..|body| - 1]), body[|body| - 1])
  }

  // The rest of a round, from the parser's return on.
  function AfterParser(stream: seq<byte>, p: Plain, r: Round): (p': Plain)
    requires Fits(stream, p)
    ensures Fits(stream, p')
  {
    if r.complete then
      var p1 := Handled(stream, p, r.body);
      if r.upgrade || !r.keepAlive then p1.(open := false) else p1.(room := BUF_SIZE - Min(BUF_SIZE, p1.ahead))
    else
      p.(open := p.ahead == 0 && p.room > 0)
  }

  function AfterFetch(stream: seq<byte>, p: Plain, r: Round): (p': Plain)
    requires Fits(stream, p)
    ensures Fits(stream, p')
  {
    if p.ahead == 0 then p.(open := false) else AfterParser(stream, Parsed(stream, p, Min(r.parsed, p.ahead)), r)
  }

  function NextRound(stream: seq<byte>, p: Plain, r: Round): (p': Plain)
    requires Fits(stream, p)
    ensures Fits(stream, p')
  {
    if p.open then AfterFetch(stream, Fetched(stream, p, r.has), r) else p
  }

  function Served(stream: seq<byte>, rounds: seq<Round>): (p: Plain)
    ensures Fits(stream, p)
  {
    if rounds == [] then START else NextRound(stream, Served(stream, rounds[..|rounds| - 1]), rounds[|rounds| - 1])
  }

  function BytesOf(log: seq<Piece>): seq<byte> {
    if log == [] then [] else BytesOf(log[..|log| - 1]) + log[|log| - 1].bytes
  }

  // All that was handed on is what the client sent, in order, each byte once.
  predicate InOrder(stream: seq<byte>, p: Plain) {
    Fits(stream, p) && BytesOf(p.log) == stream[..p.at]
  }

  lemma OneMorePiece(stream: seq<byte>, p: Plain, n: nat, piece: Piece)
    requires InOrder(stream, p) && p.at + n <= |stream| && piece.bytes == stream[p.at..p.at + n]
    ensures BytesOf(p.log + [piece]) == stream[..p.at + n]
  {
    assert (p.log + [piece])[..|p.log|] == p.log;
  }

  lemma {:induction false} HandledInOrder(stream: seq<byte>, p: Plain, body: seq<BodyRead>)
    requires InOrder(stream, p)
    ensures InOrder(stream, Handled(stream, p, body)) && Handled(stream, p, body).ahead <= p.ahead
  {
    if body != [] {
      HandledInOrder(stream, p, body[..|body| - 1]);
      var before, r := Handled(stream, p, body[..|body| - 1]), body[|body| - 1];
      var n := Min(r.len, if before.ahead > 0 then before.ahead else Min(r.has, |stream| - before.at));
      OneMorePiece(stream, before, n, ToHandler(stream[before.at..before.at + n]));
    }
  }

  predicate RoomOk(p: Plain) {
    p.ahead + p.room <= BUF_SIZE && (p.open && p.ahead == 0 ==> p.room > 0)
  }

  lemma AfterParserInOrder(stream: seq<byte>, p: Plain, r: Round)
    requires InOrder(stream, p) && p.ahead + p.room <= BUF_SIZE
    ensures InOrder(stream, AfterParser(stream, p, r)) && RoomOk(AfterParser(stream, p, r))
  {
    HandledInOrder(stream, p, r.body);
    HandledKeepsRoom(stream, p, r.body);
  }

  lemma {:induction false} HandledKeepsRoom(stream: seq<byte>, p: Plain, body: seq<BodyRead>)
    requires Fits(stream, p)
    ensures Handled(stream, p, body).room == p.room
  {
    if body != [] {
      HandledKeepsRoom(stream, p, body[..|body| - 1]);
    }
  }

  lemma ParsedInOrder(stream: seq<byte>, p: Plain, n: nat)
    requires InOrder(stream, p) && n <= p.ahead
    ensures InOrder(stream, Parsed(stream, p, n))
  {
    OneMorePiece(stream, p, n, ToParser(stream[p.at..p.at + n]));
  }

  lemma RoundInOrder(stream: seq<byte>, p: Plain, r: Round)
    requires InOrder(stream, p) && RoomOk(p)
    ensures InOrder(stream, NextRound(stream, p, r)) && RoomOk(NextRound(stream, p, r))
  {
    var p1 := Fetched(stream, p, r.has);
    if p.open && p1.ahead > 0 {
      assert NextRound(stream, p, r) == AfterParser(stream, Parsed(stream, p1, Min(r.parsed, p1.ahead)), r);
      var n := Min(r.parsed, p1.ahead);
      ParsedInOrder(stream, p1, n);
      AfterParserInOrder(stream, Parsed(stream, p1, n), r);
    }
  }

  /** Whatever the socket, the parser and the handlers do, what they are given is, all together, the
      beginning of what the client sends, in order and without a gap; and an open connection always
      has room to read more, so a read that gets nothing means that the socket has nothing. */
  lemma {:induction false} EachByteOnce(stream: seq<byte>, rounds: seq<Round>)
    ensures InOrder(stream, Served(stream, rounds)) && RoomOk(Served(stream, rounds))
  {
    if rounds != [] {
      EachByteOnce(stream, rounds[..|rounds| - 1]);
      RoundInOrder(stream, Served(stream, rounds[..|rounds| - 1]), rounds[|rounds| - 1]);
    }
  }

  lemma {:induction false} ClosedStays(stream: seq<byte>, rounds: seq<Round>, i: nat)
    requires i <= |rounds| && !Served(stream, rounds[..i]).open
    ensures Served(stream, rounds) == Served(stream, rounds[..i])
    decreases |rounds|
  {
    if i == |rounds| {
      assert rounds[..i] == rounds;
    } else {
      var fewer := rounds[..|rounds| - 1];
      assert fewer[..i] == rounds[..i];
      ClosedStays(stream, fewer, i);
    }
  }

  // Bytes that arrive in other portions, to a parser and handlers that go as far, make no
  // difference to what has been handed on by then.
  lemma SameBytesByThen(stream: seq<byte>, rounds: seq<Round>, others: seq<Round>)
    requires Served(stream, rounds).at == Served(stream, others).at
    ensures BytesOf(Served(stream, rounds).log) == BytesOf(Served(stream, others).log)
  {
    EachByteOnce(stream, rounds);
    EachByteOnce(stream, others);
  }

  // --- which rounds keep the connection open, and what they hand on ---

  // Up to here everything belonged to the messages that are complete.
  function MessageStart(stream: seq<byte>, rounds: seq<Round>): nat {
    if rounds == [] then 0
    else if rounds[|rounds| - 1].complete then Served(stream, rounds).at
    else MessageStart(stream, rounds[..|rounds| - 1])
  }

  lemma ServedMore(stream: seq<byte>, rounds: seq<Round>, r: Round)
    ensures Served(stream, rounds + [r]) == NextRound(stream, Served(stream, rounds), r)
    ensures MessageStart(stream, rounds + [r])
            == if r.complete then Served(stream, rounds + [r]).at else MessageStart(stream, rounds)
  {
    assert (rounds + [r])[..|rounds|] == rounds;
  }

  // The buffer holds one message from its start.
  lemma {:induction false} RoomIsLeft(stream: seq<byte>, rounds: seq<Round>)
    ensures var p := Served(stream, rounds);
            p.open ==> p.at - MessageStart(stream, rounds) + p.ahead + p.room == BUF_SIZE
  {
    if rounds != [] {
      var fewer, r := rounds[..|rounds| - 1], rounds[|rounds| - 1];
      RoomIsLeft(stream, fewer);
      EachByteOnce(stream, rounds);
      assert rounds == fewer + [r];
      ServedMore(stream, fewer, r);
    }
  }

  /** A connection stays open if and only if there was something to parse, and either a message is
      complete, it is no upgrade and the connection is to be kept; or none is, the parser has taken
      all there was, and the message is shorter than 8192 bytes so far. */
  lemma StaysOpen(stream: seq<byte>, rounds: seq<Round>, r: Round)
    ensures var p, q := Served(stream, rounds), Served(stream, rounds + [r]);
            q.open <==> && p.open && (p.ahead > 0 || (r.has > 0 && p.at < |stream|))
                        && if r.complete then r.keepAlive && !r.upgrade
                           else q.ahead == 0 && q.at - MessageStart(stream, rounds) < 8192
  {
    var p := Served(stream, rounds);
    ServedMore(stream, rounds, r);
    EachByteOnce(stream, rounds);
    RoomIsLeft(stream, rounds);
    if r.complete && p.open {
      var p1 := Fetched(stream, p, r.has);
      HandledKeepsOpen(stream, Parsed(stream, p1, Min(r.parsed, p1.ahead)), r.body);
    }
  }

  lemma {:induction false} HandledKeepsOpen(stream: seq<byte>, p: Plain, body: seq<BodyRead>)
    requires Fits(stream, p)
    ensures Handled(stream, p, body).open == p.open
  {
    if body != [] {
      HandledKeepsOpen(stream, p, body[..|body| - 1]);
    }
  }

  // What a read of a handler gets that starts at some place of what the client sends: no more than it
  // asks for, of what has been read ahead if there is any, or else of what the socket has.
  function ReadGets(stream: seq<byte>, from: nat, buffered: nat, read: BodyRead): (n: nat)
    requires from <= |stream| && buffered <= |stream|
    ensures from + n <= |stream|
  {
    Min(read.len, if from < buffered then buffered - from else Min(read.has, |stream| - from))
  }

  // All its reads, one after the other, and where they end.
  function Reads(stream: seq<byte>, start: nat, buffered: nat, body: seq<BodyRead>): (r: (seq<Piece>, nat))
    requires start <= |stream| && buffered <= |stream|
    ensures start <= r.1 <= |stream| && |r.0| == |body|
  {
    if body == [] then ([], start)
    else
      var (pieces, from) := Reads(stream, start, buffered, body[..|body| - 1]);
      var to := from + ReadGets(stream, from, buffered, body[|body| - 1]);
      (pieces + [ToHandler(stream[from..to])], to)
  }

  lemma {:induction false} HandledReads(stream: seq<byte>, p: Plain, body: seq<BodyRead>)
    requires Fits(stream, p)
    ensures var p', (pieces, to) := Handled(stream, p, body), Reads(stream, p.at, p.at + p.ahead, body);
            && p'.at == to && p'.log == p.log + pieces
            && p'.ahead == (if to < p.at + p.ahead then p.at + p.ahead - to else 0)
  {
    if body == [] {
      assert p.log + [] == p.log;
    } else {
      var fewer := body[..|body| - 1];
      HandledReads(stream, p, fewer);
      assert Handled(stream, p, body) == BodyTaken(stream, Handled(stream, p, fewer), body[|body| - 1]);
    }
  }

  // How much there is for the parser: what is left in the buffer, or else what a read brings, which
  // has room up to the end of the buffer that holds the message from its start.
  function Available(stream: seq<byte>, rounds: seq<Round>, has: nat): (n: nat) {
    var p := Served(stream, rounds);
    if p.ahead > 0 then p.ahead
    else
      var used := if p.at > MessageStart(stream, rounds) then p.at - MessageStart(stream, rounds) else 0;
      Min(8192 - Min(8192, used), Min(has, |stream| - p.at))
  }

  lemma {:induction false} StartedBefore(stream: seq<byte>, rounds: seq<Round>)
    ensures MessageStart(stream, rounds) <= Served(stream, rounds).at
  {
    if rounds != [] {
      var fewer, r := rounds[..|rounds| - 1], rounds[|rounds| - 1];
      StartedBefore(stream, fewer);
      var p := Served(stream, fewer);
      if p.open && Fetched(stream, p, r.has).ahead > 0 && r.complete {
        var p1 := Fetched(stream, p, r.has);
        HandledReads(stream, Parsed(stream, p1, Min(r.parsed, p1.ahead)), r.body);
      }
    }
  }

  // What a round hands on: one piece to the parser, as much as it takes of what is there, and if a
  // message is complete one for each of the handler's reads.
  function HandedOn(stream: seq<byte>, at: nat, there: nat, r: Round): seq<Piece>
    requires at + there <= |stream|
  {
    var parsed := at + Min(r.parsed, there);
    [ToParser(stream[at..parsed])] + if r.complete then Reads(stream, parsed, at + there, r.body).0 else []
  }

  lemma ParsedThenRead(stream: seq<byte>, p: Plain, r: Round, there: nat)
    requires Fits(stream, p) && p.open && Fetched(stream, p, r.has).ahead == there > 0
    ensures p.at + there <= |stream|
    ensures NextRound(stream, p, r).log == p.log + HandedOn(stream, p.at, there, r)
  {
    var p1 := Fetched(stream, p, r.has);
    var p2 := Parsed(stream, p1, Min(r.parsed, p1.ahead));
    HandledReads(stream, p2, r.body);
    assert NextRound(stream, p, r).log == if r.complete then Handled(stream, p2, r.body).log else p2.log;
  }

  lemma AvailableIsFetched(stream: seq<byte>, rounds: seq<Round>, has: nat)
    requires Served(stream, rounds).open
    ensures Fetched(stream, Served(stream, rounds), has).ahead == Available(stream, rounds, has)
  {
    EachByteOnce(stream, rounds);
    RoomIsLeft(stream, rounds);
    StartedBefore(stream, rounds);
  }

  /** Every round of an open connection in which there is something for the parser hands on just that. */
  lemma RoundPieces(stream: seq<byte>, rounds: seq<Round>, r: Round)
    requires Served(stream, rounds).open && Available(stream, rounds, r.has) > 0
    ensures var p, there := Served(stream, rounds), Available(stream, rounds, r.has);
            && p.at + there <= |stream|
            && Served(stream, rounds + [r]).log == p.log + HandedOn(stream, p.at, there, r)
  {
    AvailableIsFetched(stream, rounds, r.has);
    ServedMore(stream, rounds, r);
    ParsedThenRead(stream, Served(stream, rounds), r, Available(stream, rounds, r.has));
  }

  // --- the loop over the buffer ---

  lemma SameParts(a: seq<byte>, from: nat, to: nat, b: seq<byte>, from': nat, to': nat, n: nat)
    requires from + n <= to <= |a| && from' + n <= to' <= |b| && a[from..to] == b[from'..to']
    ensures a[from..from + n] == b[from'..from' + n] && a[from + n..to] == b[from' + n..to']
  {
    assert a[from..from + n] == a[from..to][..n] && b[from'..from' + n] == b[from'..to'][..n];
    assert a[from + n..to] == a[from..to][n..] && b[from' + n..to'] == b[from'..to'][n..];
  }

  // The client's end: what it sends, and how much of that has been read.
  class Socket {
    const stream: seq<byte>
    var pos: nat

    constructor (stream: seq<byte>)
      ensures this.stream == stream && pos == 0
    {
      this.stream, pos := stream, 0;
    }

    method Read(len: nat, has: nat) returns (got: seq<byte>)
      requires pos <= |stream|
      modifies this
      ensures pos == old(pos) + Min(len, Min(has, |stream| - old(pos))) <= |stream|
      ensures got == stream[old(pos)..pos]
    {
      var n := Min(len, Min(has, |stream| - pos));
      got := stream[pos..pos + n];
      pos := pos + n;
    }
  }

  class Connection {
    const socket: Socket
    const buf: array<byte>
    var bsp: nat
    var bep: nat

    // What is in the buffer is the last that was read from the socket.
    ghost predicate Valid()
      reads this, socket, buf
    {
      && buf.Length == BUF_SIZE && bsp <= bep <= buf.Length
      && bep - bsp <= socket.pos <= |socket.stream|
      && buf[bsp..bep] == socket.stream[socket.pos - (bep - bsp)..socket.pos]
    }

    // The buffer is where the loop without one is.
    ghost predicate Shows(p: Plain)
      reads this, socket, buf
    {
      && Valid() && Fits(socket.stream, p)
      && p.at + p.ahead == socket.pos && p.ahead == bep - bsp && p.room == buf.Length - bep
    }

    constructor (stream: seq<byte>)
      ensures Shows(START) && socket.stream == stream && fresh(socket) && fresh(buf)
    {
      socket := new Socket(stream);
      buf := new byte[BUF_SIZE](_ => 0);
      bsp, bep := 0, 0;
    }

    // What is read goes behind what is there.
    method Fill(has: nat, ghost p: Plain)
      requires Shows(p) && bsp == bep
      modifies this`bep, socket, buf
      ensures Shows(Fetched(socket.stream, p, has))
    {
      var got := socket.Read(buf.Length - bep, has);
      for i := 0 to |got|
        invariant bep == old(bep) && buf[bep..bep + i] == got[..i]
        modifies buf
      {
        buf[bep + i] := got[i];
        assert buf[bep..bep + i + 1] == buf[bep..bep + i] + [got[i]];
      }
      bep := bep + |got|;
      assert buf[bsp..bep] == got;
    }

    lemma Front(n: nat)
      requires Valid() && n <= bep - bsp
      ensures var at := socket.pos - (bep - bsp);
              && buf[bsp..bsp + n] == socket.stream[at..at + n]
              && buf[bsp + n..bep] == socket.stream[at + n..socket.pos]
    {
      var at := socket.pos - (bep - bsp);
      SameParts(buf[..], bsp, bep, socket.stream, at, socket.pos, n);
    }

    // The parser takes n bytes.
    method Parse(n: nat, ghost p: Plain) returns (given: seq<byte>)
      requires Shows(p) && n <= bep - bsp
      modifies this`bsp
      ensures Shows(Parsed(socket.stream, p, n)) && p.log + [ToParser(given)] == Parsed(socket.stream, p, n).log
    {
      Front(n);
      given := buf[bsp..bsp + n];
      bsp := bsp + n;
    }

    // A handler reads: first what is left in the buffer, then from the socket.
    method Read(len: nat, has: nat, ghost p: Plain) returns (given: seq<byte>)
      requires Shows(p)
      modifies this`bsp, socket
      ensures var p' := BodyTaken(socket.stream, p, BodyRead(len, has));
              Shows(p') && p.log + [ToHandler(given)] == p'.log
    {
      if bsp != bep {
        var n := if len > bep - bsp then bep - bsp else len;
        Front(n);
        given := buf[bsp..bsp + n];
        bsp := bsp + n;
      } else {
        given := socket.Read(len, has);
      }
    }

    // What is left moves to the front.
    method Compact(ghost p: Plain)
      requires Shows(p)
      modifies this`bsp, this`bep, buf
      ensures Shows(p.(room := BUF_SIZE - p.ahead)) && bsp == 0
    {
      var n := bep - bsp;
      for i := 0 to n
        invariant bsp == old(bsp) && bep == old(bep)
        invariant forall k | 0 <= k < i :: buf[k] == old(buf[bsp + k])
        invariant forall k | i <= k < buf.Length :: buf[k] == old(buf[k])
      {
        buf[i] := buf[bsp + i];
      }
      assert buf[..n] == old(buf[bsp..bep]);
      bep := n;
      bsp := 0;
    }
  }

  // A handler reads as often and as much as it likes.
  method RunHandler(conn: Connection, body: seq<BodyRead>, ghost p: Plain) returns (given: seq<Piece>)
    requires conn.Shows(p)
    modifies conn`bsp, conn.socket
    ensures conn.Shows(Handled(conn.socket.stream, p, body)) && p.log + given == Handled(conn.socket.stream, p, body).log
  {
    given := [];
    for i := 0 to |body|
      invariant conn.Shows(Handled(conn.socket.stream, p, body[..i]))
      invariant p.log + given == Handled(conn.socket.stream, p, body[..i]).log
    {
      assert body[..i + 1][..i] == body[..i];
      var bytes := conn.Read(body[i].len, body[i].has, Handled(conn.socket.stream, p, body[..i]));
      given := given + [ToHandler(bytes)];
    }
    assert body[..|body|] == body;
  }

  // What is left in the buffer is what the loop without one is ahead.
  ghost predicate EndsAt(conn: Connection, p: Plain)
    reads conn, conn.socket, conn.buf
  {
    conn.Valid() && conn.bep - conn.bsp == p.ahead && conn.socket.pos == p.at + p.ahead
  }

  method FinishRound(conn: Connection, r: Round, ghost p: Plain) returns (goOn: bool, given: seq<Piece>)
    requires conn.Shows(p) && p.open
    modifies conn`bsp, conn`bep, conn.socket, conn.buf
    ensures var p' := AfterParser(conn.socket.stream, p, r);
            goOn == p'.open && p.log + given == p'.log && EndsAt(conn, p') && (goOn ==> conn.Shows(p'))
  {
    if r.complete {
      HandledKeeps(conn.socket.stream, p, r.body);
      given := RunHandler(conn, r.body, p);
      if r.upgrade || !r.keepAlive {
        return false, given;
      }
      conn.Compact(Handled(conn.socket.stream, p, r.body));
      goOn := true;
    } else {
      goOn, given := conn.bsp == conn.bep && conn.bsp != conn.buf.Length, [];
    }
  }

  lemma {:induction false} HandledKeeps(stream: seq<byte>, p: Plain, body: seq<BodyRead>)
    requires Fits(stream, p)
    ensures Handled(stream, p, body).open == p.open && Handled(stream, p, body).ahead <= p.ahead
  {
    if body != [] {
      HandledKeeps(stream, p, body[..|body| - 1]);
    }
  }

  lemma OnePieceFirst(p: seq<Piece>, first: Piece, more: seq<Piece>, all: seq<Piece>)
    requires all == (p + [first]) + more
    ensures p + ([first] + more) == all
  {
  }

  method ParseRound(conn: Connection, r: Round, ghost p: Plain) returns (goOn: bool, given: seq<Piece>)
    requires conn.Shows(p) && p.open
    modifies conn`bsp, conn`bep, conn.socket, conn.buf
    ensures var p' := AfterFetch(conn.socket.stream, p, r);
            goOn == p'.open && p.log + given == p'.log && EndsAt(conn, p') && (goOn ==> conn.Shows(p'))
  {
    if conn.bsp == conn.bep {
      return false, [];
    }
    var n := Min(r.parsed, conn.bep - conn.bsp);
    var parsed := conn.Parse(n, p);
    ghost var p1 := Parsed(conn.socket.stream, p, n);
    ghost var p2 := AfterParser(conn.socket.stream, p1, r);
    var more;
    goOn, more := FinishRound(conn, r, p1);
    given := [ToParser(parsed)] + more;
    OnePieceFirst(p.log, ToParser(parsed), more, p2.log);
  }

  // One round of the loop; the connection is closed when it is not to go on.
  method ServeRound(conn: Connection, r: Round, ghost p: Plain) returns (goOn: bool, given: seq<Piece>)
    requires conn.Shows(p) && p.open
    modifies conn`bsp, conn`bep, conn.socket, conn.buf
    ensures var p' := NextRound(conn.socket.stream, p, r);
            goOn == p'.open && p.log + given == p'.log && EndsAt(conn, p') && (goOn ==> conn.Shows(p'))
  {
    ghost var p1 := Fetched(conn.socket.stream, p, r.has);
    if conn.bsp == conn.bep {
      conn.Fill(r.has, p);
    }
    assert conn.Shows(p1) && p1.open && p1.log == p.log;
    goOn, given := ParseRound(conn, r, p1);
  }

  lemma LeftOver(stream: seq<byte>, p: Plain, left: seq<byte>)
    requires InOrder(stream, p) && left == stream[p.at..p.at + p.ahead]
    ensures BytesOf(p.log) + left == stream[..p.at + p.ahead]
  {
  }

  lemma ServedNext(stream: seq<byte>, rounds: seq<Round>, i: nat)
    requires i < |rounds|
    ensures Served(stream, rounds[..i + 1]) == NextRound(stream, Served(stream, rounds[..i]), rounds[i])
  {
    assert rounds[..i + 1][..i] == rounds[..i];
  }

  // The loop, on a new connection.
  method ServeAll(conn: Connection, rounds: seq<Round>) returns (given: seq<Piece>)
    requires conn.Shows(START)
    modifies conn`bsp, conn`bep, conn.socket, conn.buf
    ensures given == Served(conn.socket.stream, rounds).log && EndsAt(conn, Served(conn.socket.stream, rounds))
  {
    ghost var stream := conn.socket.stream;
    given := [];
    var i, goOn := 0, true;
    ghost var p := START;
    while i < |rounds| && goOn
      invariant i <= |rounds| && p == Served(stream, rounds[..i]) && goOn == p.open && given == p.log
      invariant EndsAt(conn, p) && (goOn ==> conn.Shows(p))
      decreases |rounds| - i
    {
      ServedNext(stream, rounds, i);
      var more;
      goOn, more := ServeRound(conn, rounds[i], p);
      given := given + more;
      p := NextRound(stream, p, rounds[i]);
      i := i + 1;
    }
    if goOn {
      assert rounds[..i] == rounds;
    } else {
      ClosedStays(stream, rounds, i);
    }
  }

  /** The request loop gives the parser and the handlers, piece by piece, exactly what the loop
      without a buffer gives them; what has been read besides is left in the buffer. */
  method Serve(stream: seq<byte>, rounds: seq<Round>) returns (given: seq<Piece>, left: seq<byte>)
    ensures given == Served(stream, rounds).log
    ensures var p := Served(stream, rounds);
            BytesOf(given) + left == stream[..p.at + p.ahead] && |left| == p.ahead
  {
    var conn := new Connection(stream);
    given := ServeAll(conn, rounds);
    EachByteOnce(stream, rounds);
    left := conn.buf[conn.bsp..conn.bep];
    LeftOver(stream, Served(stream, rounds), left);
  }
}
