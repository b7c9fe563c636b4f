/** The receive state of an SCTP association: the cumulative TSN and the set of TSNs after it stand
    for everything that was received, and the gap blocks of a SACK stand for that set. */
module SctpReceive {
  import opened Bytes

  const TSN_COUNT := 0x1_0000_0000

  // tsns is a std::set, in the order in which it is iterated.
  datatype Received = Received(tsns: Tsns, last: uint32, dups: seq<uint32>)

  type Tsns = tsns: seq<uint32> | Increasing(tsns) witness []

  predicate Increasing(tsns: seq<uint32>) {
    forall i, j | 0 <= i < j < |tsns| :: tsns[i] < tsns[j]
  }

  function Next(tsn: uint32): uint32 {
    (tsn + 1) % TSN_COUNT
  }

  function Previous(tsn: uint32): uint32 {
    (tsn + TSN_COUNT - 1) % TSN_COUNT
  }

  function Insert(tsns: Tsns, tsn: uint32): (r: Tsns)
    ensures forall t :: t in r <==> t == tsn || t in tsns
    ensures tsn in tsns ==> r == tsns
  {
    if tsns == [] || tsn < tsns[0] then
      [tsn] + tsns
    else if tsn == tsns[0] then
      tsns
    else
      var r := Insert(tsns[1..], tsn);
      assert tsns == [tsns[0]] + tsns[1..];
      assert forall i | 0 <= i < |r| :: tsns[0] < r[i] by {
        assert forall t | t in tsns[1..] :: tsns[0] < t;
        assert forall i | 0 <= i < |r| :: r[i] in r;
      }
      [tsns[0]] + r
  }

  // --- what do_chunk_init, the add_chunk lambda and send_acks do to it ---

  function Inited(s: Received, initial: uint32): Received {
    var last := Previous(initial);
    s.(last := last, tsns := Insert(s.tsns, Next(last)))
  }

  function Added(s: Received, tsn: uint32): Received {
    if tsn > s.last then
      s.(tsns := Insert(s.tsns, tsn), dups := if tsn in s.tsns then s.dups + [tsn] else s.dups)
    else
      s
  }

  function Advanced(s: Received): Received
    decreases |s.tsns|
  {
    if s.tsns != [] && s.tsns[0] == Next(s.last) then
      Advanced(s.(last := Next(s.last), tsns := s.tsns[1..]))
    else
      s
  }

  function Acked(s: Received): Received {
    Advanced(s).(dups := [])
  }

  predicate AllBeyond(s: Received) {
    forall i | 0 <= i < |s.tsns| :: s.tsns[i] > s.last
  }

  type Block = (nat, nat)

  class Association {
    var tsns: Tsns
    var last: uint32
    var dups: seq<uint32>

    constructor ()
      ensures Value() == Received([], 0, [])
    {
      tsns, last, dups := [], 0, [];
    }

    function Value(): Received
      reads this
    {
      Received(tsns, last, dups)
    }

    method DoChunkInit(initial: uint32)
      modifies this
      ensures Value() == Inited(old(Value()), initial)
    {
      last := (initial + TSN_COUNT - 1) % TSN_COUNT;
      tsns := Insert(tsns, (last + 1) % TSN_COUNT);
    }

    method AddChunk(tsn: uint32)
      modifies this
      ensures Value() == Added(old(Value()), tsn)
    {
      if tsn > last {
        var inserted := tsn !in tsns;
        tsns := Insert(tsns, tsn);
        if !inserted {
          dups := dups + [tsn];
        }
      }
    }

    method Advance()
      modifies this
      ensures Value() == Advanced(old(Value()))
    {
      while tsns != []
        invariant Advanced(Value()) == Advanced(old(Value()))
        decreases |tsns|
      {
        if tsns[0] == (last + 1) % TSN_COUNT {
          last := (last + 1) % TSN_COUNT;
          tsns := tsns[1..];
        } else {
          break;
        }
      }
    }

    /** The blocks are the maximal runs of the set, as offsets from last. */
    method GapBlocks() returns (blocks: seq<Block>)
      requires AllBeyond(Value())
      ensures AreRuns(blocks, tsns, last)
    {
      blocks := [];
      if tsns == [] {
        return;
      }
      var prev := tsns[0];
      var blockStart := prev;
      prev := (prev + TSN_COUNT - 1) % TSN_COUNT;
      for i := 0 to |tsns|
        invariant i == 0 ==> blocks == [] && blockStart == tsns[0] == prev + 1
        invariant i > 0 ==> last < blockStart <= prev == tsns[i - 1]
        invariant i > 0 ==> AreRuns(blocks + [(blockStart - last, prev - last)], tsns[..i], last)
      {
        var t := tsns[i];
        if i == 0 {
          FirstRun(tsns, last);
        } else {
          NextRun(blocks, blockStart, prev, tsns, i, last);
        }
        NoWrap(prev, t);
        if t != (prev + 1) % TSN_COUNT {
          blocks := blocks + [(blockStart - last, prev - last)];
          blockStart := t;
        }
        prev := t;
      }
      blocks := blocks + [(blockStart - last, prev - last)];
      assert tsns[..|tsns|] == tsns;
    }

    /** The SACK chunk: the duplicates take four bytes each but only two of them are written. */
    method BuildSack(blocks: seq<Block>) returns (sack: array<byte>)
      ensures fresh(sack) && sack[..] == SackBytes(last, blocks, dups)
    {
      var sackSize := SACK_HEADER_SIZE + 4 * |blocks| + 4 * |dups|;
      sack := new byte[sackSize](_ => 0);
      var at := SACK_HEADER_SIZE + 4 * |blocks|;
      WriteSackHeader(sack, sackSize, last, |blocks|, |dups|);
      ghost var header := sack[..SACK_HEADER_SIZE];
      WriteBlocks(sack, blocks);
      assert sack[..SACK_HEADER_SIZE] == header;
      ghost var start := sack[..at];
      WriteDups(sack, at, dups);
      assert sack[..at] == start;
      InParts(sack[..], SACK_HEADER_SIZE, at);
      InParts(start, SACK_HEADER_SIZE, at);
    }
  }

  lemma InParts(b: seq<byte>, n: nat, at: nat)
    requires n <= at <= |b|
    ensures b == b[..at] + b[at..] && b[..at] == b[..n] + b[n..at]
  {
  }

  method WriteSackHeader(sack: array<byte>, sackSize: nat, last: uint32, blocks: nat, dups: nat)
    requires sack.Length >= SACK_HEADER_SIZE && sack[1] == 0 && sackSize == SACK_HEADER_SIZE + 4 * blocks + 4 * dups
    modifies sack
    ensures sack[..SACK_HEADER_SIZE] == SackHeader(last, blocks, dups)
    ensures forall k | SACK_HEADER_SIZE <= k < sack.Length :: sack[k] == old(sack[k])
  {
    sack[0] := CHNK_SACK;
    SetBe16(sackSize % 0x1_0000, sack, 2);
    SetBe32(last, sack, 4);
    SetBe32(65536 * 4, sack, 8);
    SetBe16(blocks % 0x1_0000, sack, 12);
    SetBe16(dups % 0x1_0000, sack, 14);
    HeaderFromParts(sack[..], last, blocks, dups);
  }

  lemma HeaderFromParts(sack: seq<byte>, last: uint32, blocks: nat, dups: nat)
    requires |sack| >= SACK_HEADER_SIZE && sack[0] == CHNK_SACK && sack[1] == 0
    requires sack[2..4] == Be16((SACK_HEADER_SIZE + 4 * blocks + 4 * dups) % 0x1_0000)
    requires sack[4..8] == Be32(last) && sack[8..12] == Be32(65536 * 4)
    requires sack[12..14] == Be16(blocks % 0x1_0000) && sack[14..16] == Be16(dups % 0x1_0000)
    ensures sack[..SACK_HEADER_SIZE] == SackHeader(last, blocks, dups)
  {
    assert sack[..SACK_HEADER_SIZE] == [CHNK_SACK, 0] + sack[2..4] + sack[4..8] + sack[8..12] + sack[12..14] + sack[14..16];
  }

  lemma FourMore(b: seq<byte>, at: nat, ptr: nat)
    requires at <= ptr && ptr + 4 <= |b|
    ensures b[at..ptr + 4] == b[at..ptr] + b[ptr..ptr + 2] + b[ptr + 2..ptr + 4]
  {
  }

  method WriteBlocks(sack: array<byte>, blocks: seq<Block>)
    requires sack.Length >= SACK_HEADER_SIZE + 4 * |blocks|
    modifies sack
    ensures sack[SACK_HEADER_SIZE..SACK_HEADER_SIZE + 4 * |blocks|] == BlockBytes(blocks)
    ensures forall k | 0 <= k < sack.Length && !(SACK_HEADER_SIZE <= k < SACK_HEADER_SIZE + 4 * |blocks|) :: sack[k] == old(sack[k])
  {
    var ptr := SACK_HEADER_SIZE;
    for i := 0 to |blocks|
      invariant ptr == SACK_HEADER_SIZE + 4 * i
      invariant sack[SACK_HEADER_SIZE..ptr] == BlockBytes(blocks[..i])
      invariant forall k | 0 <= k < sack.Length && !(SACK_HEADER_SIZE <= k < ptr) :: sack[k] == old(sack[k])
    {
      ghost var before := sack[SACK_HEADER_SIZE..ptr];
      SetBe16(blocks[i].0 % 0x1_0000, sack, ptr);
      SetBe16(blocks[i].1 % 0x1_0000, sack, ptr + 2);
      assert sack[SACK_HEADER_SIZE..ptr] == before;
      FourMore(sack[..], SACK_HEADER_SIZE, ptr);
      assert blocks[..i + 1][..i] == blocks[..i];
      ptr := ptr + 4;
    }
    assert blocks[..|blocks|] == blocks;
  }

  method WriteDups(sack: array<byte>, at: nat, dups: seq<uint32>)
    requires sack.Length == at + 4 * |dups|
    requires forall k | at <= k < sack.Length :: sack[k] == 0
    modifies sack
    ensures sack[at..] == DupBytes(dups)
    ensures forall k | 0 <= k < at :: sack[k] == old(sack[k])
  {
    var ptr := at;
    for i := 0 to |dups|
      invariant ptr == at + 4 * i
      invariant sack[at..ptr] == DupBytes(dups[..i])
      invariant forall k | 0 <= k < at :: sack[k] == old(sack[k])
      invariant forall k | ptr <= k < sack.Length :: sack[k] == 0
    {
      ghost var before := sack[at..ptr];
      SetBe16(dups[i] % 0x1_0000, sack, ptr);
      assert sack[at..ptr] == before;
      FourMore(sack[..], at, ptr);
      assert sack[ptr + 2..ptr + 4] == [0, 0];
      assert dups[..i + 1][..i] == dups[..i];
      ptr := ptr + 4;
    }
    assert dups[..|dups|] == dups;
  }

  // --- the SACK chunk ---

  const CHNK_SACK: byte := 3
  const SACK_HEADER_SIZE := 16

  function SackHeader(last: uint32, blocks: nat, dups: nat): (h: seq<byte>)
    ensures |h| == SACK_HEADER_SIZE
  {
    [CHNK_SACK, 0] + Be16((SACK_HEADER_SIZE + 4 * blocks + 4 * dups) % 0x1_0000) + Be32(last) + Be32(65536 * 4)
    + Be16(blocks % 0x1_0000) + Be16(dups % 0x1_0000)
  }

  function OneBlock(block: Block): (b: seq<byte>)
    ensures |b| == 4
  {
    Be16(block.0 % 0x1_0000) + Be16(block.1 % 0x1_0000)
  }

  function BlockBytes(blocks: seq<Block>): (b: seq<byte>)
    ensures |b| == 4 * |blocks|
  {
    if blocks == [] then [] else BlockBytes(blocks[..|blocks| - 1]) + OneBlock(blocks[|blocks| - 1])
  }

  function OneDup(dup: uint32): (b: seq<byte>)
    ensures |b| == 4
  {
    Be16(dup % 0x1_0000) + [0, 0]
  }

  function DupBytes(dups: seq<uint32>): (b: seq<byte>)
    ensures |b| == 4 * |dups|
  {
    if dups == [] then [] else DupBytes(dups[..|dups| - 1]) + OneDup(dups[|dups| - 1])
  }

  function SackBytes(last: uint32, blocks: seq<Block>, dups: seq<uint32>): seq<byte> {
    SackHeader(last, |blocks|, |dups|) + BlockBytes(blocks) + DupBytes(dups)
  }

  // Each block is a run, one missing TSN at least separates it from the next, and together they
  // are the set.
  ghost predicate AreRuns(blocks: seq<Block>, tsns: seq<uint32>, last: uint32) {
    && (forall i | 0 <= i < |blocks| :: blocks[i].0 <= blocks[i].1)
    && (forall i, j | 0 <= i < j < |blocks| :: blocks[i].1 + 1 < blocks[j].0)
    && (forall n: nat :: Covered(blocks, n) <==> last + n in tsns)
  }

  ghost predicate Covered(blocks: seq<Block>, n: nat) {
    exists i :: 0 <= i < |blocks| && blocks[i].0 <= n <= blocks[i].1
  }

  lemma OneRun(t: uint32, last: uint32)
    requires t > last
    ensures AreRuns([(t - last, t - last)], [t], last)
  {
    var blocks := [(t - last, t - last)];
    forall n: nat
      ensures Covered(blocks, n) <==> last + n in [t]
    {
      if last + n == t {
        assert blocks[0].0 <= n <= blocks[0].1;
      }
    }
  }

  lemma LongerRun(blocks: seq<Block>, first: nat, end: nat, tsns: seq<uint32>, last: uint32)
    requires AreRuns(blocks + [(first, end)], tsns, last) && last + end + 1 < TSN_COUNT
    ensures AreRuns(blocks + [(first, end + 1)], tsns + [last + end + 1], last)
  {
    var before, after := blocks + [(first, end)], blocks + [(first, end + 1)];
    assert forall i | 0 <= i < |blocks| :: after[i] == before[i];
    assert before[|blocks|] == (first, end);
    forall n: nat
      ensures Covered(after, n) <==> last + n in tsns + [last + end + 1]
    {
      assert Covered(before, n) <==> last + n in tsns;
      if Covered(before, n) {
        var i :| 0 <= i < |before| && before[i].0 <= n <= before[i].1;
        assert after[i].0 <= n <= after[i].1;
      }
      if n == end + 1 {
        assert after[|blocks|].0 <= n <= after[|blocks|].1;
      }
      if Covered(after, n) && n != end + 1 {
        var i :| 0 <= i < |after| && after[i].0 <= n <= after[i].1;
        assert before[i].0 <= n <= before[i].1;
      }
    }
  }

  lemma AnotherRun(blocks: seq<Block>, first: nat, end: nat, t: uint32, tsns: seq<uint32>, last: uint32)
    requires AreRuns(blocks + [(first, end)], tsns, last) && t > last + end + 1
    ensures AreRuns(blocks + [(first, end)] + [(t - last, t - last)], tsns + [t], last)
  {
    var before := blocks + [(first, end)];
    var after := before + [(t - last, t - last)];
    assert before[|blocks|] == (first, end);
    forall n: nat
      ensures Covered(after, n) <==> last + n in tsns + [t]
    {
      assert Covered(before, n) <==> last + n in tsns;
      if Covered(before, n) {
        var i :| 0 <= i < |before| && before[i].0 <= n <= before[i].1;
        assert after[i].0 <= n <= after[i].1;
      }
      if n == t - last {
        assert after[|before|].0 <= n <= after[|before|].1;
      }
      if Covered(after, n) && n != t - last {
        var i :| 0 <= i < |after| && after[i].0 <= n <= after[i].1;
        assert before[i].0 <= n <= before[i].1;
      }
    }
    forall i | 0 <= i < |before|
      ensures before[i].1 + 1 < t - last
    {
      assert i < |blocks| ==> before[i].1 + 1 < before[|blocks|].0;
    }
  }

  lemma FirstRun(tsns: seq<uint32>, last: uint32)
    requires tsns != [] && tsns[0] > last
    ensures AreRuns([] + [(tsns[0] - last, tsns[0] - last)], tsns[..1], last)
  {
    OneRun(tsns[0], last);
    assert tsns[..1] == [tsns[0]];
    assert [] + [(tsns[0] - last, tsns[0] - last)] == [(tsns[0] - last, tsns[0] - last)];
  }

  lemma NoWrap(prev: nat, t: uint32)
    requires prev < t
    ensures (prev + 1) % TSN_COUNT == prev + 1
  {
  }

  // One more TSN lengthens the run that is open, or closes it and opens another.
  lemma NextRun(blocks: seq<Block>, start: nat, prev: nat, tsns: seq<uint32>, i: nat, last: uint32)
    requires i < |tsns| && last < start <= prev < tsns[i]
    requires AreRuns(blocks + [(start - last, prev - last)], tsns[..i], last)
    ensures tsns[i] == prev + 1 ==> AreRuns(blocks + [(start - last, tsns[i] - last)], tsns[..i + 1], last)
    ensures tsns[i] > prev + 1 ==>
              AreRuns(blocks + [(start - last, prev - last)] + [(tsns[i] - last, tsns[i] - last)], tsns[..i + 1], last)
  {
    assert tsns[..i + 1] == tsns[..i] + [tsns[i]];
    if tsns[i] == prev + 1 {
      LongerRun(blocks, start - last, prev - last, tsns[..i], last);
    } else {
      AnotherRun(blocks, start - last, prev - last, tsns[i], tsns[..i], last);
    }
  }

  // --- any sequence of DATA chunks and acknowledgements after one INIT ---

  datatype Op = Chunk(tsn: uint32) | Acks

  predicate Good(s: Received, initial: uint32) {
    s.last + 1 >= initial && AllBeyond(s)
  }

  function Apply(s: Received, op: Op): Received {
    match op
    case Chunk(tsn) => Added(s, tsn)
    case Acks => Acked(s)
  }

  function After(s: Received, ops: seq<Op>): Received {
    if ops == [] then s else Apply(After(s, ops[..|ops| - 1]), ops[|ops| - 1])
  }

  function Run(initial: uint32, ops: seq<Op>): Received {
    After(Inited(Received([], 0, []), initial), ops)
  }

  // What the compressed form stands for.
  predicate Holds(s: Received, initial: uint32, t: uint32) {
    initial <= t <= s.last || t in s.tsns
  }

  lemma {:induction false} AdvancedHolds(s: Received, initial: uint32)
    requires Good(s, initial)
    ensures var r := Advanced(s);
            && Good(r, initial) && r.last >= s.last && r.dups == s.dups
            && (r.tsns != [] ==> r.tsns[0] > r.last + 1)
            && forall t: uint32 :: Holds(r, initial, t) <==> Holds(s, initial, t)
    decreases |s.tsns|
  {
    if s.tsns != [] && s.tsns[0] == Next(s.last) {
      var s1 := s.(last := Next(s.last), tsns := s.tsns[1..]);
      assert s.tsns == [s.tsns[0]] + s1.tsns;
      assert forall t: uint32 :: Holds(s1, initial, t) <==> Holds(s, initial, t);
      AdvancedHolds(s1, initial);
    }
  }

  lemma AddedHolds(s: Received, initial: uint32, tsn: uint32)
    requires Good(s, initial)
    ensures var r := Added(s, tsn);
            && Good(r, initial) && r.last == s.last
            && forall t: uint32 :: Holds(r, initial, t) <==> Holds(s, initial, t) || (t == tsn >= initial)
  {
    var r := Added(s, tsn);
    forall i | 0 <= i < |r.tsns|
      ensures r.tsns[i] > r.last
    {
      assert r.tsns[i] in r.tsns;
    }
  }

  lemma {:induction false} AfterHolds(s: Received, initial: uint32, ops: seq<Op>, t: uint32)
    requires Good(s, initial)
    ensures Good(After(s, ops), initial)
    ensures Holds(After(s, ops), initial, t) <==> Holds(s, initial, t) || (t >= initial && Chunk(t) in ops)
  {
    if ops != [] {
      var fewer, op := ops[..|ops| - 1], ops[|ops| - 1];
      var before := After(s, fewer);
      AfterHolds(s, initial, fewer, t);
      assert ops == fewer + [op];
      AdvancedHolds(before, initial);
      if op.Chunk? {
        AddedHolds(before, initial, op.tsn);
      } else {
        assert Holds(Acked(before), initial, t) <==> Holds(Advanced(before), initial, t);
      }
    }
  }

  /** The cumulative TSN and the set stand for exactly the initial TSN, which INIT itself puts in,
      and every TSN from there on that came in a DATA chunk.  All of the set is beyond the
      cumulative TSN. */
  lemma NothingLostNothingInvented(initial: uint32, ops: seq<Op>, t: uint32)
    requires initial >= 1
    ensures Holds(Run(initial, ops), initial, t) <==> t == initial || (t >= initial && Chunk(t) in ops)
    ensures t in Run(initial, ops).tsns ==> t > Run(initial, ops).last
  {
    RightAfterInit(initial);
    AfterHolds(Inited(Received([], 0, []), initial), initial, ops, t);
  }

  lemma RightAfterInit(initial: uint32)
    requires initial >= 1
    ensures Inited(Received([], 0, []), initial) == Received([initial], initial - 1, [])
  {
  }

  lemma {:induction false} AfterMore(s: Received, ops: seq<Op>, more: seq<Op>)
    ensures After(s, ops + more) == After(After(s, ops), more)
  {
    if more == [] {
      assert ops + more == ops;
    } else {
      assert (ops + more)[..|ops + more| - 1] == ops + more[..|more| - 1];
      AfterMore(s, ops, more[..|more| - 1]);
    }
  }

  lemma {:induction false} LastGrows(s: Received, initial: uint32, more: seq<Op>)
    requires Good(s, initial)
    ensures s.last <= After(s, more).last
  {
    if more != [] {
      var fewer := more[..|more| - 1];
      LastGrows(s, initial, fewer);
      AfterHolds(s, initial, fewer, 0);
      AdvancedHolds(After(s, fewer), initial);
    }
  }

  /** The cumulative TSN never goes back. */
  lemma CumulativeOnlyGrows(initial: uint32, ops: seq<Op>, more: seq<Op>)
    requires initial >= 1
    ensures Run(initial, ops).last <= Run(initial, ops + more).last
  {
    var s := Inited(Received([], 0, []), initial);
    RightAfterInit(initial);
    AfterHolds(s, initial, ops, 0);
    AfterMore(s, ops, more);
    LastGrows(Run(initial, ops), initial, more);
  }

  lemma ApplyKeepsGood(s: Received, initial: uint32, op: Op)
    requires Good(s, initial)
    ensures Good(Apply(s, op), initial)
  {
    AdvancedHolds(s, initial);
    if op.Chunk? {
      AddedHolds(s, initial, op.tsn);
    }
  }

  lemma ApplyInited(initial: uint32, op: Op)
    ensures var s := Inited(Received([], 0, []), initial); Good(Apply(s, op), initial) || Apply(s, op) == s
  {
    AdvancedInited(initial);
    var s := Inited(Received([], 0, []), initial);
    if initial >= 1 {
      RightAfterInit(initial);
      ApplyKeepsGood(s, initial, op);
    }
  }

  lemma {:induction false} GoodOrJustInited(initial: uint32, ops: seq<Op>)
    ensures Good(Run(initial, ops), initial) || Run(initial, ops) == Inited(Received([], 0, []), initial)
  {
    if ops != [] {
      GoodOrJustInited(initial, ops[..|ops| - 1]);
      ApplyInited(initial, ops[|ops| - 1]);
      if Good(Run(initial, ops[..|ops| - 1]), initial) {
        ApplyKeepsGood(Run(initial, ops[..|ops| - 1]), initial, ops[|ops| - 1]);
      }
    }
  }

  lemma AdvancedInited(initial: uint32)
    ensures Advanced(Inited(Received([], 0, []), initial)) == Received([], initial, [])
  {
    var s := Inited(Received([], 0, []), initial);
    assert s.tsns == [initial] && Next(s.last) == initial;
    assert Advanced(Received([], initial, [])) == Received([], initial, []);
  }

  /** Whenever send_acks has moved the cumulative TSN forward, all of the set is beyond it. */
  lemma AllBeyondWhenAcked(initial: uint32, ops: seq<Op>)
    ensures AllBeyond(Acked(Run(initial, ops)))
  {
    GoodOrJustInited(initial, ops);
    if Good(Run(initial, ops), initial) {
      AdvancedHolds(Run(initial, ops), initial);
    } else {
      AdvancedInited(initial);
    }
  }

  // --- duplicates ---

  function Repeats(times: nat): nat {
    if times == 0 then 0 else times - 1
  }

  // How often t was there or came.
  function Times(s: Received, chunks: seq<Op>, t: uint32): nat {
    multiset(chunks)[Chunk(t)] + if t in s.tsns then 1 else 0
  }

  lemma {:induction false} RepeatsCounted(s: Received, chunks: seq<Op>, t: uint32)
    requires s.dups == [] && forall i | 0 <= i < |chunks| :: chunks[i].Chunk?
    ensures var r := After(s, chunks);
            && r.last == s.last
            && (t > s.last ==> (t in r.tsns <==> Times(s, chunks, t) > 0))
            && multiset(r.dups)[t] == if t > s.last then Repeats(Times(s, chunks, t)) else 0
  {
    if chunks != [] {
      var fewer, chunk := chunks[..|chunks| - 1], chunks[|chunks| - 1];
      RepeatsCounted(s, fewer, t);
      assert chunks == fewer + [chunk];
      assert multiset(chunks)[Chunk(t)] == multiset(fewer)[Chunk(t)] + if chunk == Chunk(t) then 1 else 0;
    }
  }

  /** What a SACK reports as duplicates is each TSN beyond the cumulative one as often as it came
      again since the SACK before, counting from where it was there already. */
  lemma DuplicatesReported(initial: uint32, early: seq<Op>, chunks: seq<Op>, t: uint32)
    requires forall i | 0 <= i < |chunks| :: chunks[i].Chunk?
    ensures var s := Run(initial, early + [Acks]);
            multiset(Run(initial, early + [Acks] + chunks).dups)[t] == if t > s.last then Repeats(Times(s, chunks, t)) else 0
  {
    var s := Run(initial, early + [Acks]);
    assert (early + [Acks])[..|early|] == early;
    AfterMore(Inited(Received([], 0, []), initial), early + [Acks], chunks);
    RepeatsCounted(s, chunks, t);
  }

  /** And they are reported in the order in which they came: one more chunk adds its TSN at the end, if
      and only if that was there already. */
  lemma DuplicatesInOrder(initial: uint32, early: seq<Op>, chunks: seq<Op>, t: uint32)
    requires forall i | 0 <= i < |chunks| :: chunks[i].Chunk?
    ensures var s, was := Run(initial, early + [Acks]), Run(initial, early + [Acks] + chunks);
            Run(initial, early + [Acks] + chunks + [Chunk(t)]).dups
            == was.dups + if t > s.last && Times(s, chunks, t) > 0 then [t] else []
  {
    var s, ops := Run(initial, early + [Acks]), early + [Acks] + chunks;
    assert (early + [Acks])[..|early|] == early;
    AfterMore(Inited(Received([], 0, []), initial), early + [Acks], chunks);
    RepeatsCounted(s, chunks, t);
    assert (ops + [Chunk(t)])[..|ops|] == ops;
  }

  // --- initial TSN 0: initial - 1 wraps, and no TSN is beyond it until the first SACK ---

  ghost predicate Exact(initial: uint32, ops: seq<Op>) {
    forall t: uint32 :: Holds(Run(initial, ops), initial, t) <==> t == initial || (t >= initial && Chunk(t) in ops)
  }

  lemma {:induction false} ChunksIgnored(s: Received, ops: seq<Op>)
    requires s.last == TSN_COUNT - 1 && forall i | 0 <= i < |ops| :: ops[i].Chunk?
    ensures After(s, ops) == s
  {
    if ops != [] {
      ChunksIgnored(s, ops[..|ops| - 1]);
    }
  }

  lemma AfterFirstSack(early: seq<Op>, later: seq<Op>)
    requires forall i | 0 <= i < |early| :: early[i].Chunk?
    ensures Run(0, early + [Acks] + later) == After(Received([], 0, []), later)
  {
    var s := Inited(Received([], 0, []), 0);
    assert s == Received([0], TSN_COUNT - 1, []);
    ChunksIgnored(s, early);
    assert Advanced(s) == Advanced(Received([], 0, []));
    assert (early + [Acks])[..|early|] == early;
    AfterMore(s, early + [Acks], later);
  }

  /** Once the first SACK is out, the compressed form is exact if and only if the initial TSN is not
      0, or else every TSN that came before that SACK came again after it. */
  lemma ExactUnlessEarlyWithZero(initial: uint32, early: seq<Op>, later: seq<Op>)
    requires forall i | 0 <= i < |early| :: early[i].Chunk?
    ensures Exact(initial, early + [Acks] + later) <==>
            (initial >= 1 || forall t: uint32 | t >= 1 && Chunk(t) in early :: Chunk(t) in later)
  {
    var ops := early + [Acks] + later;
    if initial >= 1 {
      forall t: uint32
        ensures Holds(Run(initial, ops), initial, t) <==> t == initial || (t >= initial && Chunk(t) in ops)
      {
        NothingLostNothingInvented(initial, ops, t);
      }
    } else {
      forall t: uint32
        ensures Holds(Run(0, ops), 0, t) <==> t == 0 || Chunk(t) in later
      {
        ZeroHolds(early, later, t);
      }
      assert forall t: uint32 :: Chunk(t) in ops <==> Chunk(t) in early || Chunk(t) in later;
    }
  }

  lemma ZeroHolds(early: seq<Op>, later: seq<Op>, t: uint32)
    requires forall i | 0 <= i < |early| :: early[i].Chunk?
    ensures Holds(Run(0, early + [Acks] + later), 0, t) <==> t == 0 || Chunk(t) in later
  {
    AfterFirstSack(early, later);
    AfterHolds(Received([], 0, []), 0, later, t);
  }

  // A TSN that is lost in this way.
  lemma LostWithZero()
    ensures !Holds(Run(0, [Chunk(5), Acks]), 0, 5)
  {
    AfterFirstSack([Chunk(5)], []);
    assert [Chunk(5)] + [Acks] + [] == [Chunk(5), Acks];
  }

  // --- reading a SACK back ---

  function ReadBlock(b: seq<byte>): Block
    requires |b| >= 4
  {
    (FromBe16(b) as nat, FromBe16(b[2..]) as nat)
  }

  function ReadBlocks(b: seq<byte>, n: nat): (blocks: seq<Block>)
    requires |b| >= 4 * n
    ensures |blocks| == n
    ensures forall i | 0 <= i < n :: blocks[i] == ReadBlock(b[4 * i..4 * i + 4])
  {
    seq(n, i requires 0 <= i < n => ReadBlock(b[4 * i..4 * i + 4]))
  }

  // What section 3.3.4 of RFC 4960 makes of the chunk: the blocks that its own count announces.
  function ReadSack(sack: seq<byte>): (r: (uint32, seq<Block>))
    requires |sack| >= SACK_HEADER_SIZE && |sack| >= SACK_HEADER_SIZE + 4 * FromBe16(sack[12..])
  {
    (FromBe32(sack[4..]), ReadBlocks(sack[SACK_HEADER_SIZE..], FromBe16(sack[12..])))
  }

  /** Of the four bytes that section 3.3.4 of RFC 4960 has for a duplicate TSN only two are written,
      so a reader gets the TSN that was meant if and only if that is 0. */
  lemma DuplicateReads(dup: uint32)
    ensures FromBe32(OneDup(dup)) == dup <==> dup == 0
  {
    var low := dup % 0x1_0000;
    RoundTrip16(low);
    assert FromBe32(OneDup(dup)) == FromBe16(Be16(low)) * 0x1_0000;
  }

  lemma {:induction false} DupAt(dups: seq<uint32>, i: nat)
    requires i < |dups|
    ensures DupBytes(dups)[4 * i..4 * i + 4] == OneDup(dups[i])
  {
    var n := |dups| - 1;
    var fewer := DupBytes(dups[..n]);
    assert DupBytes(dups) == fewer + OneDup(dups[n]);
    if i < n {
      DupAt(dups[..n], i);
      assert (fewer + OneDup(dups[n]))[4 * i..4 * i + 4] == fewer[4 * i..4 * i + 4];
    } else {
      assert (fewer + OneDup(dups[n]))[4 * n..4 * n + 4] == OneDup(dups[n]);
    }
  }

  /** What is there of the duplicates, behind the blocks and in the order they came: of each the lower
      half of its TSN, then two zero bytes; and in the header how many there are. */
  lemma DuplicateInSack(last: uint32, blocks: seq<Block>, dups: seq<uint32>, i: nat)
    requires i < |dups|
    ensures var sack, at := SackBytes(last, blocks, dups), 16 + 4 * |blocks| + 4 * i;
            && |sack| >= at + 4 && FromBe16(sack[14..]) == |dups| % 0x1_0000
            && FromBe16(sack[at..]) == dups[i] % 0x1_0000 && sack[at + 2..at + 4] == [0, 0]
  {
    var sack, start := SackBytes(last, blocks, dups), 16 + 4 * |blocks|;
    var at := start + 4 * i;
    DupAt(dups, i);
    assert sack[start..] == DupBytes(dups);
    assert sack[at..at + 4] == sack[start..][4 * i..4 * i + 4] == OneDup(dups[i]);
    RoundTrip16(dups[i] % 0x1_0000);
    assert sack[at..][..2] == sack[at..at + 4][..2] == Be16(dups[i] % 0x1_0000);
    assert sack[at + 2..at + 4] == sack[at..at + 4][2..];
    CountOfDups(last, |blocks|, |dups|, BlockBytes(blocks) + DupBytes(dups));
    assert sack == SackHeader(last, |blocks|, |dups|) + (BlockBytes(blocks) + DupBytes(dups));
  }

  lemma CountOfDups(last: uint32, blocks: nat, dups: nat, rest: seq<byte>)
    ensures FromBe16((SackHeader(last, blocks, dups) + rest)[14..]) == dups % 0x1_0000
  {
    RoundTrip16(dups % 0x1_0000);
    assert SackHeader(last, blocks, dups)[14..] == Be16(dups % 0x1_0000);
    assert (SackHeader(last, blocks, dups) + rest)[14..][..2] == Be16(dups % 0x1_0000);
  }

  predicate Fits(block: Block) {
    block.0 < 0x1_0000 && block.1 < 0x1_0000
  }

  lemma ReadsTwo(x: uint16, y: uint16)
    ensures ReadBlock(Be16(x) + Be16(y)) == (x as nat, y as nat)
  {
    RoundTrip16(x);
    RoundTrip16(y);
    assert (Be16(x) + Be16(y))[2..] == Be16(y);
  }

  lemma FitsAsIs(block: Block)
    requires Fits(block)
    ensures OneBlock(block) == Be16(block.0) + Be16(block.1)
  {
  }

  lemma ReadsOneBlock(block: Block)
    requires Fits(block)
    ensures ReadBlock(OneBlock(block)) == block
  {
    FitsAsIs(block);
    ReadsTwo(block.0, block.1);
  }

  lemma {:induction false} BlockAt(blocks: seq<Block>, i: nat)
    requires i < |blocks|
    ensures BlockBytes(blocks)[4 * i..4 * i + 4] == OneBlock(blocks[i])
  {
    var n := |blocks| - 1;
    var fewer := BlockBytes(blocks[..n]);
    assert BlockBytes(blocks) == fewer + OneBlock(blocks[n]);
    if i < n {
      BlockAt(blocks[..n], i);
      assert (fewer + OneBlock(blocks[n]))[4 * i..4 * i + 4] == fewer[4 * i..4 * i + 4];
    } else {
      assert (fewer + OneBlock(blocks[n]))[4 * n..4 * n + 4] == OneBlock(blocks[n]);
    }
  }

  lemma ReadsBlockAt(b: seq<byte>, blocks: seq<Block>, i: nat)
    requires |b| >= 4 * |blocks| && b[..4 * |blocks|] == BlockBytes(blocks)
    requires i < |blocks| && Fits(blocks[i])
    ensures ReadBlock(b[4 * i..4 * i + 4]) == blocks[i]
  {
    BlockAt(blocks, i);
    ReadsOneBlock(blocks[i]);
    SliceOfPrefix(b, 4 * |blocks|, 4 * i, 4 * i + 4);
  }

  lemma SliceOfPrefix(b: seq<byte>, n: nat, from: nat, to: nat)
    requires from <= to <= n <= |b|
    ensures b[..n][from..to] == b[from..to]
  {
  }

  lemma ReadsBlocks(b: seq<byte>, blocks: seq<Block>)
    requires |b| >= 4 * |blocks| && b[..4 * |blocks|] == BlockBytes(blocks)
    requires forall i | 0 <= i < |blocks| :: Fits(blocks[i])
    ensures ReadBlocks(b, |blocks|) == blocks
  {
    forall i | 0 <= i < |blocks|
      ensures ReadBlocks(b, |blocks|)[i] == blocks[i]
    {
      ReadsBlockAt(b, blocks, i);
    }
  }

  // Separated runs below 65536 are at most 32768, so their count fits as well.
  lemma {:induction false} FewBlocks(blocks: seq<Block>, tsns: seq<uint32>, last: uint32, n: nat)
    requires AreRuns(blocks, tsns, last) && n < |blocks|
    ensures 2 * n <= blocks[n].0
  {
    if n > 0 {
      FewBlocks(blocks, tsns, last, n - 1);
    }
  }

  lemma BlocksFit(blocks: seq<Block>, tsns: seq<uint32>, last: uint32)
    requires AreRuns(blocks, tsns, last) && forall i | 0 <= i < |tsns| :: tsns[i] - last < 0x1_0000
    ensures |blocks| < 0x1_0000 && forall i | 0 <= i < |blocks| :: Fits(blocks[i])
  {
    forall i | 0 <= i < |blocks|
      ensures Fits(blocks[i])
    {
      assert Covered(blocks, blocks[i].1);
      assert last + blocks[i].1 in tsns;
    }
    if |blocks| > 0 {
      FewBlocks(blocks, tsns, last, |blocks| - 1);
    }
  }

  lemma HeaderReads(sack: seq<byte>, last: uint32, blocks: nat, dups: nat)
    requires |sack| >= SACK_HEADER_SIZE && sack[..SACK_HEADER_SIZE] == SackHeader(last, blocks, dups)
    ensures FromBe32(sack[4..]) == last && FromBe16(sack[12..]) == blocks % 0x1_0000
  {
    RoundTrip32(last);
    RoundTrip16(blocks % 0x1_0000);
    assert sack[4..8] == sack[..SACK_HEADER_SIZE][4..8] == Be32(last);
    assert sack[12..14] == sack[..SACK_HEADER_SIZE][12..14] == Be16(blocks % 0x1_0000);
    assert sack[4..][..4] == sack[4..8] && sack[12..][..2] == sack[12..14];
  }

  /** The rest of the header: type 3, no flags, and a receiver window of 262144. */
  lemma SackAnnounces(last: uint32, blocks: seq<Block>, dups: seq<uint32>)
    ensures var sack := SackBytes(last, blocks, dups); |sack| >= 16 && sack[0] == 3 && sack[1] == 0 && FromBe32(sack[8..]) == 262144
  {
    var header := SackHeader(last, |blocks|, |dups|);
    RoundTrip32(65536 * 4);
    assert SackBytes(last, blocks, dups)[8..][..4] == header[8..12] == Be32(65536 * 4);
  }

  lemma ShortOffsetsRead(last: uint32, tsns: seq<uint32>, blocks: seq<Block>, dups: seq<uint32>)
    requires AreRuns(blocks, tsns, last) && forall i | 0 <= i < |tsns| :: tsns[i] - last < 0x1_0000
    ensures |blocks| < 0x1_0000
    ensures ReadBlocks(SackBytes(last, blocks, dups)[SACK_HEADER_SIZE..], |blocks|) == blocks
  {
    BlocksFit(blocks, tsns, last);
    AfterHeader(SackHeader(last, |blocks|, |dups|), BlockBytes(blocks), DupBytes(dups));
    ReadsBlocks(SackBytes(last, blocks, dups)[SACK_HEADER_SIZE..], blocks);
  }

  lemma AfterHeader(header: seq<byte>, blocks: seq<byte>, dups: seq<byte>)
    ensures (header + blocks + dups)[|header|..][..|blocks|] == blocks
  {
  }

  lemma LongOffsetsDoNot(read: seq<byte>, n: nat, tsns: seq<uint32>, last: uint32, i: nat)
    requires |read| >= 4 * n && i < |tsns| && tsns[i] - last >= 0x1_0000
    ensures !AreRuns(ReadBlocks(read, n), tsns, last)
  {
    var blocks := ReadBlocks(read, n);
    assert forall k | 0 <= k < n :: Fits(blocks[k]);
    assert !Covered(blocks, tsns[i] - last);
    assert last + (tsns[i] - last) in tsns;
  }

  lemma SackReads(last: uint32, blocks: seq<Block>, dups: seq<uint32>)
    ensures var sack, n := SackBytes(last, blocks, dups), |blocks| % 0x1_0000;
            && |sack| >= SACK_HEADER_SIZE + 4 * n && FromBe16(sack[12..]) == n
            && ReadSack(sack) == (last, ReadBlocks(sack[SACK_HEADER_SIZE..], n))
  {
    HeaderReads(SackBytes(last, blocks, dups), last, |blocks|, |dups|);
  }

  lemma RunsReadOrNot(read: seq<byte>, last: uint32, tsns: seq<uint32>, blocks: seq<Block>, dups: seq<uint32>)
    requires AreRuns(blocks, tsns, last) && read == SackBytes(last, blocks, dups)[SACK_HEADER_SIZE..]
    ensures AreRuns(ReadBlocks(read, |blocks| % 0x1_0000), tsns, last)
            <==> forall i | 0 <= i < |tsns| :: tsns[i] - last < 0x1_0000
  {
    if forall i | 0 <= i < |tsns| :: tsns[i] - last < 0x1_0000 {
      ShortOffsetsRead(last, tsns, blocks, dups);
    } else {
      var i :| 0 <= i < |tsns| && tsns[i] - last >= 0x1_0000;
      LongOffsetsDoNot(read, |blocks| % 0x1_0000, tsns, last, i);
    }
  }

  /** Reading a SACK gives back the cumulative TSN, and the set of TSNs exactly if no offset is too
      long for 16 bits. */
  lemma SackRoundTrip(last: uint32, tsns: seq<uint32>, blocks: seq<Block>, dups: seq<uint32>)
    requires AreRuns(blocks, tsns, last)
    ensures var sack := SackBytes(last, blocks, dups);
            && |sack| >= SACK_HEADER_SIZE + 4 * FromBe16(sack[12..])
            && ReadSack(sack).0 == last
            && (AreRuns(ReadSack(sack).1, tsns, last) <==> forall i | 0 <= i < |tsns| :: tsns[i] - last < 0x1_0000)
  {
    SackReads(last, blocks, dups);
    RunsReadOrNot(SackBytes(last, blocks, dups)[SACK_HEADER_SIZE..], last, tsns, blocks, dups);
  }

  /** After the cumulative TSN was moved forward, the first block starts at 2 or later. */
  lemma FirstBlockFrom2(s: Received, initial: uint32, blocks: seq<Block>, i: nat)
    requires Good(s, initial) && AreRuns(blocks, Acked(s).tsns, Acked(s).last) && i < |blocks|
    ensures blocks[i].0 >= 2
  {
    AdvancedHolds(s, initial);
    var r := Acked(s);
    assert Covered(blocks, blocks[i].0);
    assert r.last + blocks[i].0 in r.tsns;
    var k :| 0 <= k < |r.tsns| && r.tsns[k] == r.last + blocks[i].0;
    assert r.tsns[0] <= r.tsns[k];
  }

  /** So the sender learns from a SACK which of its TSNs were received, no more and no less. */
  lemma SenderLearnsWhatWasReceived(initial: uint32, ops: seq<Op>, blocks: seq<Block>, dups: seq<uint32>, t: uint32)
    requires 1 <= initial <= t
    requires var s := Run(initial, ops + [Acks]);
             && AreRuns(blocks, s.tsns, s.last)
             && forall i | 0 <= i < |s.tsns| :: s.tsns[i] - s.last < 0x1_0000
    ensures var sack := SackBytes(Run(initial, ops + [Acks]).last, blocks, dups);
            && |sack| >= SACK_HEADER_SIZE + 4 * FromBe16(sack[12..])
            && var (cumulative, read) := ReadSack(sack);
               t <= cumulative || Covered(read, t - cumulative) <==> t == initial || Chunk(t) in ops
  {
    var s := Run(initial, ops + [Acks]);
    SackRoundTrip(s.last, s.tsns, blocks, dups);
    NothingLostNothingInvented(initial, ops + [Acks], t);
    var read := ReadSack(SackBytes(s.last, blocks, dups)).1;
    if t > s.last {
      assert Covered(read, t - s.last) <==> s.last + (t - s.last) in s.tsns;
    }
  }
}
