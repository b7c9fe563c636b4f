/** The STUN message builder and the STUN parser.  HMAC is any function to twenty bytes, and looking
    up a user name is any function to the data of a connection. */
module Stun {
  import ByteBits
  import opened Bytes
  import opened Crc32
  import opened Wrappers

  const MSG_HEADER_SIZE := 20
  const ATTRIBUTE_HEADER_SIZE := 4
  const MAGIC_COOKIE: seq<byte> := [0x21, 0x12, 0xa4, 0x42]

  const MAPPED_ADDRESS: uint16 := 0x0001
  const USERNAME: uint16 := 0x0006
  const MESSAGE_INTEGRITY: uint16 := 0x0008
  const XOR_MAPPED_ADDRESS: uint16 := 0x0020
  const PRIORITY: uint16 := 0x0024
  const USE_CANDIDATE: uint16 := 0x0025
  const FINGERPRINT: uint16 := 0x8028
  const ICE_CONTROLLED: uint16 := 0x8029
  const ICE_CONTROLLING: uint16 := 0x802A
  const BINDING: uint16 := 0x0001
  const SUCCESS_RESPONSE: uint16 := 0x0100

  type Digest = d: seq<byte> | |d| == 20 witness seq(20, _ => 0)
  type Crc = w: seq<byte> | |w| == 4 witness seq(4, _ => 0)

  type Hmac = (seq<byte>, seq<byte>) -> Digest

  // The two sums over a message: one with a key, and the fingerprint.
  datatype Sums = Sums(hmac: Hmac, crc: seq<byte> -> Crc)

  function FingerprintOf(b: seq<byte>): Crc {
    WordBytes(StunCrc(b))
  }

  // (n + 3) & 0x0fffc
  function Align(n: nat): (r: nat)
    ensures n <= 65532 ==> n <= r < n + 4
    ensures n <= 65532 && n % 4 == 0 ==> r == n
  {
    (n + 3) % 0x1_0000 / 4 * 4
  }

  function Resize(b: seq<byte>, n: nat): (r: seq<byte>)
    ensures |r| == n
  {
    if n <= |b| then b[..n] else b + Zeros(n - |b|)
  }

  function Put(b: seq<byte>, at: nat, x: seq<byte>): (r: seq<byte>)
    requires at + |x| <= |b|
    ensures |r| == |b|
  {
    b[..at] + x + b[at + |x|..]
  }

  function XorBytes(a: seq<byte>, b: seq<byte>): (r: seq<byte>)
    requires |a| <= |b|
    ensures |r| == |a|
  {
    seq(|a|, i requires 0 <= i < |a| => ByteBits.Xor(a[i], b[i]))
  }

  // --- the builder ---

  function AttributeHeader(kind: uint16, length: uint16): (b: seq<byte>)
    ensures |b| == ATTRIBUTE_HEADER_SIZE
  {
    Be16(kind) + Be16(length)
  }

  // Aligns the end of the buffer and puts an attribute there.
  function Append(b: seq<byte>, kind: uint16, value: seq<byte>): (r: seq<byte>)
    requires |value| < 0x1_0000
    ensures |r| == Align(|b|) + 4 + |value|
  {
    Resize(b, Align(|b|)) + AttributeHeader(kind, |value|) + value
  }

  // What the length field says for a message of n bytes, in sixteen bits.
  function LengthField(n: nat): (b: seq<byte>)
    ensures |b| == 2
  {
    Be16((n + 0x1_0000 - MSG_HEADER_SIZE) % 0x1_0000)
  }

  function Started(messageType: uint16, transId: seq<byte>): seq<byte>
    requires |transId| >= 12
  {
    Be16(messageType) + [0, 0] + MAGIC_COOKIE + transId[..12]
  }

  // Makes room for an attribute that covers what precedes it, and already counts it in the length
  // field of the message.
  function Opened(b: seq<byte>, kind: uint16, length: uint16): (r: seq<byte>)
    ensures |r| == Align(|b|) + 4 + length
  {
    var sz := Align(|b|);
    var r := Put(Resize(b, sz + 4 + length), 2, LengthField(sz + 4 + length));
    Put(Put(r, sz, Be16(kind)), sz + 2, Be16(length))
  }

  function WithIntegrity(hmac: Hmac, pwd: seq<byte>, b: seq<byte>): seq<byte> {
    var sz, r := Align(|b|), Opened(b, MESSAGE_INTEGRITY, 20);
    Put(r, sz + 4, hmac(pwd, r[..sz]))
  }

  function WithFingerprint(crc: seq<byte> -> Crc, b: seq<byte>): seq<byte> {
    var sz, r := Align(|b|), Opened(b, FINGERPRINT, 4);
    Put(r, sz + 4, crc(r[..sz]))
  }

  // Family 1, also for the sixteen bytes of IPv6.
  function XorMappedValue(b: seq<byte>, port: seq<byte>, addr: seq<byte>): (v: seq<byte>)
    requires |b| >= MSG_HEADER_SIZE && |port| == 2 && (|addr| == 4 || |addr| == 16)
    ensures |v| == 4 + |addr|
  {
    Be16(1) + XorBytes(port, b[4..6]) + XorBytes(addr, b[4..4 + |addr|])
  }

  const IPV4_IN_6: seq<byte> := Zeros(10) + [0xff, 0xff]

  // An IPv4 address inside an IPv6 one is sent as IPv4.
  function Mapped(addr: seq<byte>): (a: seq<byte>)
    requires |addr| == 4 || |addr| == 16
    ensures |a| == 4 || |a| == 16
  {
    if |addr| == 16 && addr[..12] == IPV4_IN_6 then addr[12..] else addr
  }

  function WithXorMapped(b: seq<byte>, port: seq<byte>, addr: seq<byte>): seq<byte>
    requires |b| >= MSG_HEADER_SIZE && |port| == 2 && (|addr| == 4 || |addr| == 16)
  {
    Append(b, XOR_MAPPED_ADDRESS, XorMappedValue(b, port, Mapped(addr)))
  }

  class StunMessageBuilder {
    var buff: seq<byte>

    constructor (messageType: uint16, transId: seq<byte>)
      requires |transId| >= 12
      ensures buff == Started(messageType, transId)
    {
      var b := Put(Resize([], 20), 0, Be16(messageType));
      b := Put(b, 4, MAGIC_COOKIE);
      b := Put(b, 8, transId[..12]);
      buff := b;
    }

    method AddXorMappedAddress(port: seq<byte>, addr: seq<byte>)
      requires |buff| >= MSG_HEADER_SIZE && |port| == 2 && (|addr| == 4 || |addr| == 16)
      modifies this
      ensures buff == WithXorMapped(old(buff), port, addr)
    {
      var sent := addr;
      if |addr| == 16 && addr[..12] == IPV4_IN_6 {
        sent := addr[12..];
      }
      var xored := XorWith(sent, buff[4..]);
      XorOfPrefix(sent, buff[4..], buff[4..4 + |sent|]);
      var attr := AttributeHeader(XOR_MAPPED_ADDRESS, 4 + |sent|) + (Be16(1) + XorBytes(port, buff[4..6]) + xored);
      var sz := Align(|buff|);
      buff := Resize(buff, sz + |attr|);
      buff := Put(buff, sz, attr);
      PutAtEnd(old(buff), sz, attr);
    }

    method AddIceControlled()
      modifies this
      ensures buff == Append(old(buff), ICE_CONTROLLED, Zeros(8))
    {
      var sz := Align(|buff|);
      buff := Resize(buff, sz + 12);
      buff := Put(buff, sz, Be16(ICE_CONTROLLED));
      buff := Put(buff, sz + 2, Be16(8));
      buff := Put(buff, sz + 4, Zeros(8));
      PutInParts(Resize(old(buff), sz + 12), sz, Be16(ICE_CONTROLLED), Be16(8), Zeros(8));
      PutAtEnd(old(buff), sz, Be16(ICE_CONTROLLED) + Be16(8) + Zeros(8));
    }

    method AddPriority(priority: uint32)
      modifies this
      ensures buff == Append(old(buff), PRIORITY, Be32(priority))
    {
      var sz := Align(|buff|);
      buff := Resize(buff, sz + 8);
      buff := Put(buff, sz, Be16(PRIORITY));
      buff := Put(buff, sz + 2, Be16(4));
      buff := Put(buff, sz + 4, Be32(priority));
      PutInParts(Resize(old(buff), sz + 8), sz, Be16(PRIORITY), Be16(4), Be32(priority));
      PutAtEnd(old(buff), sz, Be16(PRIORITY) + Be16(4) + Be32(priority));
    }

    method AddMessageIntegrity(hmac: Hmac, pwd: seq<byte>)
      modifies this
      ensures buff == WithIntegrity(hmac, pwd, old(buff))
    {
      var sz := Align(|buff|);
      buff := Resize(buff, sz + 24);
      buff := Put(buff, 2, LengthField(sz + 24));
      buff := Put(buff, sz, Be16(MESSAGE_INTEGRITY));
      buff := Put(buff, sz + 2, Be16(20));
      var digest: Digest := hmac(pwd, buff[..sz]);
      buff := Put(buff, sz + 4, digest);
    }

    method AddFingerprint()
      modifies this
      ensures buff == WithFingerprint(FingerprintOf, old(buff))
    {
      var sz := Align(|buff|);
      buff := Resize(buff, sz + 8);
      buff := Put(buff, 2, LengthField(sz + 8));
      buff := Put(buff, sz, Be16(FINGERPRINT));
      buff := Put(buff, sz + 2, Be16(4));
      var stored := StoredCrc(buff[..sz]);
      buff := Put(buff, sz + 4, stored);
    }
  }

  lemma XorOfPrefix(a: seq<byte>, b: seq<byte>, c: seq<byte>)
    requires |a| == |c| <= |b| && c == b[..|a|]
    ensures XorBytes(a, b) == XorBytes(a, c)
  {
  }

  method StoredCrc(b: seq<byte>) returns (stored: seq<byte>)
    ensures stored == FingerprintOf(b)
  {
    var crc := Crc32Xor(b);
    stored := WordBytes(crc);
  }

  method XorWith(a: seq<byte>, b: seq<byte>) returns (r: seq<byte>)
    requires |a| <= |b|
    ensures r == XorBytes(a, b)
  {
    r := [];
    for i := 0 to |a|
      invariant r == XorBytes(a[..i], b)
    {
      assert XorBytes(a[..i + 1], b) == XorBytes(a[..i], b) + [ByteBits.Xor(a[i], b[i])];
      r := r + [ByteBits.Xor(a[i], b[i])];
    }
    assert a[..|a|] == a;
  }

  lemma PutInParts(b: seq<byte>, sz: nat, kind: seq<byte>, length: seq<byte>, value: seq<byte>)
    requires |kind| == 2 && |length| == 2 && |b| == sz + 4 + |value|
    ensures Put(Put(Put(b, sz, kind), sz + 2, length), sz + 4, value) == b[..sz] + (kind + length) + value
  {
  }

  lemma PutAtEnd(b: seq<byte>, sz: nat, attr: seq<byte>)
    ensures Resize(b, sz + |attr|)[..sz] == Resize(b, sz)
    ensures Put(Resize(b, sz + |attr|), sz, attr) == Resize(b, sz) + attr
  {
  }

  // --- the parser ---

  datatype Conn = Conn(remoteUfrag: seq<byte>, remotePwd: seq<byte>, remoteSctpPort: uint16,
                       localUfrag: seq<byte>, localPwd: seq<byte>, localSctpPort: uint16)

  type Lookup = seq<byte> -> Option<Conn>

  const NO_CONN := Conn([], [], 0, [], [], 0)
  const COLON: byte := 58

  // hasFingerprint is has_fingerprint, which the parser declares and hands on.
  datatype Parsed = Parsed(userName: seq<byte>, conn: Conn, hasFingerprint: bool, useCandidate: bool, iceControlling: bool,
                           knownClient: bool)

  datatype StunMsg = StunMsg(method_: uint16, class_: uint16, parsed: Parsed)

  const FRESH := Parsed([], NO_CONN, false, false, false, false)

  predicate Known(kind: uint16) {
    kind >= 0x8000
    || kind in {MAPPED_ADDRESS, USERNAME, MESSAGE_INTEGRITY, XOR_MAPPED_ADDRESS, PRIORITY, USE_CANDIDATE}
  }

  // The copy that is hashed: up to the attribute, with the length the message would have if it
  // ended behind it.
  function HashedCopy(msg: seq<byte>, ptr: nat, length: uint16): seq<byte>
    requires 4 <= ptr <= |msg|
  {
    Put(msg[..ptr], 2, LengthField(ptr + ATTRIBUTE_HEADER_SIZE + length))
  }

  function Checked(msg: seq<byte>, ptr: nat, kind: uint16, value: seq<byte>, st: Parsed, lookup: Lookup, sums: Sums): Option<Parsed>
    requires 4 <= ptr <= |msg| && |value| < 0x1_0000
  {
    if !Known(kind) then None
    else if kind == USERNAME then
      if COLON !in value || value[0] == COLON then None
      else match lookup(value)
        case None => None
        case Some(conn) => Some(st.(userName := value, conn := conn, knownClient := true))
    else if kind == MESSAGE_INTEGRITY then
      if |value| != 20 || st.userName == [] || sums.hmac(st.conn.localPwd, HashedCopy(msg, ptr, 20)) != value then None else Some(st)
    else if kind == USE_CANDIDATE then
      if |value| != 0 then None else Some(st.(useCandidate := true))
    else if kind == ICE_CONTROLLING then
      if |value| != 8 then None else Some(st.(iceControlling := true))
    else if kind == FINGERPRINT then
      if |value| != 4 || sums.crc(msg[..ptr]) != value then None else Some(st)
    else
      Some(st)
  }

  function Kind(msg: seq<byte>, ptr: nat): uint16
    requires ptr + ATTRIBUTE_HEADER_SIZE <= |msg|
  {
    FromBe16(msg[ptr..])
  }

  function Length(msg: seq<byte>, ptr: nat): uint16
    requires ptr + ATTRIBUTE_HEADER_SIZE <= |msg|
  {
    FromBe16(msg[ptr + 2..])
  }

  function Value(msg: seq<byte>, ptr: nat): (v: seq<byte>)
    requires ptr + ATTRIBUTE_HEADER_SIZE <= |msg| && ptr + ATTRIBUTE_HEADER_SIZE + Length(msg, ptr) <= |msg|
    ensures |v| == Length(msg, ptr)
  {
    msg[ptr + 4..ptr + 4 + Length(msg, ptr)]
  }

  function After(msg: seq<byte>, ptr: nat): nat
    requires ptr + ATTRIBUTE_HEADER_SIZE <= |msg|
  {
    ptr + ATTRIBUTE_HEADER_SIZE + Align(Length(msg, ptr))
  }

  // An attribute starts at ptr and lies within the message.
  predicate AttributeAt(msg: seq<byte>, ptr: nat) {
    ptr + ATTRIBUTE_HEADER_SIZE <= |msg| && ptr + ATTRIBUTE_HEADER_SIZE + Length(msg, ptr) <= |msg|
  }

  function ParseAttributes(msg: seq<byte>, ptr: nat, st: Parsed, lookup: Lookup, sums: Sums): Option<Parsed>
    requires ptr >= 4
    decreases |msg| - ptr
  {
    if ptr >= |msg| then Some(st)
    else if !AttributeAt(msg, ptr) then None
    else match Checked(msg, ptr, Kind(msg, ptr), Value(msg, ptr), st, lookup, sums)
      case None => None
      case Some(st') => ParseAttributes(msg, After(msg, ptr), st', lookup, sums)
  }

  // The two class bits, 0x0110.
  function ClassOf(messageType: uint16): uint16 {
    messageType / 0x10 % 2 * 0x10 + messageType / 0x100 % 2 * 0x100
  }

  function ParseHeader(msg: seq<byte>): Option<uint16> {
    if |msg| < MSG_HEADER_SIZE || msg[0] >= 0x40 || msg[4..8] != MAGIC_COOKIE then None
    else if |msg| != FromBe16(msg[2..]) + MSG_HEADER_SIZE then None
    else if FromBe16(msg) - ClassOf(FromBe16(msg)) != BINDING then None
    else Some(FromBe16(msg))
  }

  function Parse(msg: seq<byte>, lookup: Lookup, sums: Sums): Option<StunMsg> {
    match ParseHeader(msg)
    case None => None
    case Some(messageType) =>
      match ParseAttributes(msg, MSG_HEADER_SIZE, FRESH, lookup, sums)
      case None => None
      case Some(parsed) => Some(StunMsg(BINDING, ClassOf(messageType), parsed))
  }

  method FingerprintMatches(msg: seq<byte>, ptr: nat, value: seq<byte>) returns (ok: bool)
    requires ptr <= |msg|
    ensures ok <==> value == FingerprintOf(msg[..ptr])
  {
    var crc := Crc32Xor(msg[..ptr]);
    ok := value == WordBytes(crc);
  }

  // The switch of the parser.
  method CheckAttribute(msg: seq<byte>, ptr: nat, kind: uint16, value: seq<byte>, st: Parsed, lookup: Lookup, sums: Sums)
    returns (r: Option<Parsed>)
    requires 4 <= ptr <= |msg| && |value| < 0x1_0000
    requires sums.crc == FingerprintOf
    ensures r == Checked(msg, ptr, kind, value, st, lookup, sums)
  {
    if !Known(kind) {
      return None;
    }
    if kind == USERNAME {
      if COLON !in value || value[0] == COLON {
        return None;
      }
      match lookup(value)
      case None => return None;
      case Some(conn) => return Some(st.(userName := value, conn := conn, knownClient := true));
    } else if kind == MESSAGE_INTEGRITY {
      if |value| != 20 || st.userName == [] {
        return None;
      }
      var copy := HashedCopy(msg, ptr, |value|);
      if sums.hmac(st.conn.localPwd, copy) != value {
        return None;
      }
    } else if kind == USE_CANDIDATE {
      if |value| != 0 {
        return None;
      }
      return Some(st.(useCandidate := true));
    } else if kind == ICE_CONTROLLING {
      if |value| != 8 {
        return None;
      }
      return Some(st.(iceControlling := true));
    } else if kind == FINGERPRINT {
      if |value| != 4 {
        return None;
      }
      var ok := FingerprintMatches(msg, ptr, value);
      if !ok {
        return None;
      }
    }
    r := Some(st);
  }

  lemma OnAttribute(msg: seq<byte>, ptr: nat, st: Parsed, lookup: Lookup, sums: Sums, checked: Option<Parsed>)
    requires 4 <= ptr < |msg| && AttributeAt(msg, ptr)
    requires checked == Checked(msg, ptr, Kind(msg, ptr), Value(msg, ptr), st, lookup, sums)
    ensures ParseAttributes(msg, ptr, st, lookup, sums) ==
            if checked.None? then None else ParseAttributes(msg, After(msg, ptr), checked.value, lookup, sums)
  {
  }

  lemma NoAttribute(msg: seq<byte>, ptr: nat, st: Parsed, lookup: Lookup, sums: Sums)
    requires 4 <= ptr < |msg| && !AttributeAt(msg, ptr)
    ensures ParseAttributes(msg, ptr, st, lookup, sums) == None
  {
  }

  // One round of the loop: what is left to parse after it, or None.
  method NextAttribute(msg: seq<byte>, ptr: nat, st: Parsed, lookup: Lookup, sums: Sums, ghost result: Option<Parsed>)
    returns (next: Option<(nat, Parsed)>)
    requires sums.crc == FingerprintOf
    requires 4 <= ptr < |msg| && result == ParseAttributes(msg, ptr, st, lookup, sums)
    ensures next.None? ==> result == None
    ensures next.Some? ==> next.value.0 > ptr && result == ParseAttributes(msg, next.value.0, next.value.1, lookup, sums)
  {
    if ptr + ATTRIBUTE_HEADER_SIZE > |msg| {
      NoAttribute(msg, ptr, st, lookup, sums);
      return None;
    }
    var kind, length := Kind(msg, ptr), Length(msg, ptr);
    if ptr + ATTRIBUTE_HEADER_SIZE + length > |msg| {
      NoAttribute(msg, ptr, st, lookup, sums);
      return None;
    }
    var checked := CheckAttribute(msg, ptr, kind, Value(msg, ptr), st, lookup, sums);
    OnAttribute(msg, ptr, st, lookup, sums, checked);
    match checked
    case None => next := None;
    case Some(st') =>
      var ptr' := ptr + ATTRIBUTE_HEADER_SIZE + Align(length);
      assert ptr' == After(msg, ptr);
      next := Some((ptr', st'));
  }

  method WalkAttributes(msg: seq<byte>, lookup: Lookup, sums: Sums) returns (r: Option<Parsed>)
    requires sums.crc == FingerprintOf
    ensures r == ParseAttributes(msg, MSG_HEADER_SIZE, FRESH, lookup, sums)
  {
    var st := FRESH;
    var ptr := MSG_HEADER_SIZE;
    ghost var result := ParseAttributes(msg, MSG_HEADER_SIZE, FRESH, lookup, sums);
    while ptr < |msg|
      invariant ptr >= MSG_HEADER_SIZE
      invariant result == ParseAttributes(msg, ptr, st, lookup, sums)
      decreases |msg| - ptr
    {
      var next := NextAttribute(msg, ptr, st, lookup, sums, result);
      match next
      case None => return None;
      case Some((ptr', st')) => ptr, st := ptr', st';
    }
    r := Some(st);
  }

  method ParseStunMsg(msg: seq<byte>, lookup: Lookup, hmac: Hmac) returns (r: Option<StunMsg>)
    ensures r == Parse(msg, lookup, Sums(hmac, FingerprintOf))
  {
    if |msg| < 20 || msg[0] >= 0x40 || msg[4..8] != MAGIC_COOKIE {
      return None;
    }
    if |msg| != FromBe16(msg[2..]) + MSG_HEADER_SIZE {
      return None;
    }
    var messageType := FromBe16(msg);
    if messageType - ClassOf(messageType) != BINDING {
      return None;
    }
    var st := WalkAttributes(msg, lookup, Sums(hmac, FingerprintOf));
    match st
    case None => r := None;
    case Some(parsed) => r := Some(StunMsg(BINDING, ClassOf(messageType), parsed));
  }

  // --- building and parsing ---

  /** Align rounds up to a multiple of four if and only if its argument is below 65533; beyond that
      it wraps and the builder overwrites what it has. */
  lemma AlignRoundsUp(n: nat)
    ensures (n <= Align(n) < n + 4 && Align(n) % 4 == 0) <==> n <= 65532
  {
  }

  predicate Aligned(b: seq<byte>) {
    MSG_HEADER_SIZE <= |b| && |b| + 32 < 0x1_0000 && |b| % 4 == 0
  }

  // A message with integrity and fingerprint behind whatever was there.
  function Sealed(sums: Sums, pwd: seq<byte>, b: seq<byte>): seq<byte> {
    WithFingerprint(sums.crc, WithIntegrity(sums.hmac, pwd, b))
  }

  // What goes into the HMAC: the message so far, with a length that already includes the attribute.
  function IntegrityInput(b: seq<byte>): seq<byte>
    requires |b| >= 4
  {
    Put(b, 2, LengthField(|b| + 24))
  }

  lemma PutTwice(b: seq<byte>, at: nat, x: seq<byte>, y: seq<byte>)
    requires at + |x| <= |b| && |x| == |y|
    ensures Put(Put(b, at, x), at, y) == Put(b, at, y)
  {
  }

  lemma PutInFront(a: seq<byte>, b: seq<byte>, at: nat, x: seq<byte>)
    requires at + |x| <= |a|
    ensures Put(a + b, at, x) == Put(a, at, x) + b
  {
  }

  lemma PutHeader(start: seq<byte>, kind: seq<byte>, length: seq<byte>, size: nat)
    requires |kind| == 2 && |length| == 2
    ensures Put(Put(start + Zeros(4 + size), |start|, kind), |start| + 2, length) == start + (kind + length) + Zeros(size)
  {
  }

  lemma PutLength(b: seq<byte>, size: nat, field: seq<byte>)
    requires |field| == 2 && |b| >= 4
    ensures Put(Resize(b, |b| + size), 2, field) == Put(b, 2, field) + Zeros(size)
  {
    assert Resize(b, |b| + size) == b + Zeros(size);
    PutInFront(b, Zeros(size), 2, field);
  }

  lemma OpenedAligned(b: seq<byte>, kind: uint16, length: uint16)
    requires MSG_HEADER_SIZE <= |b| <= 65532 && |b| % 4 == 0
    ensures Opened(b, kind, length) == Put(b, 2, LengthField(|b| + 4 + length)) + AttributeHeader(kind, length) + Zeros(length)
  {
    var field := LengthField(|b| + 4 + length);
    PutLength(b, 4 + length, field);
    PutHeader(Put(b, 2, field), Be16(kind), Be16(length), length);
  }

  lemma PutAtEndOf(start: seq<byte>, header: seq<byte>, length: nat, value: seq<byte>)
    requires |header| == 4 && |value| == length
    ensures var r, n := start + header + Zeros(length), |start|;
            r[..n] == start && Put(r, n + 4, value) == start + header + value
  {
  }

  lemma IntegrityParts(sums: Sums, pwd: seq<byte>, b: seq<byte>)
    requires Aligned(b)
    ensures WithIntegrity(sums.hmac, pwd, b) == IntegrityInput(b) + AttributeHeader(MESSAGE_INTEGRITY, 20) + sums.hmac(pwd, IntegrityInput(b))
  {
    OpenedAligned(b, MESSAGE_INTEGRITY, 20);
    PutAtEndOf(IntegrityInput(b), AttributeHeader(MESSAGE_INTEGRITY, 20), 20, sums.hmac(pwd, IntegrityInput(b)));
  }

  lemma FingerprintParts(sums: Sums, w: seq<byte>, f: seq<byte>)
    requires MSG_HEADER_SIZE <= |w| <= 65532 && |w| % 4 == 0 && f == Put(w, 2, LengthField(|w| + 8))
    ensures WithFingerprint(sums.crc, w) == f + AttributeHeader(FINGERPRINT, 4) + sums.crc(f)
  {
    OpenedAligned(w, FINGERPRINT, 4);
    PutAtEndOf(f, AttributeHeader(FINGERPRINT, 4), 4, sums.crc(f));
  }

  // The message is some start, then integrity, then the fingerprint of what precedes it.
  predicate SealedAt(sums: Sums, m: seq<byte>, n: nat, start: seq<byte>, digest: Digest) {
    && |start| == n && |m| == n + 32 && m[..n] == start
    && m[n..n + 4] == AttributeHeader(MESSAGE_INTEGRITY, 20) && m[n + 4..n + 24] == digest
    && m[n + 24..n + 28] == AttributeHeader(FINGERPRINT, 4) && m[n + 28..] == sums.crc(m[..n + 24])
  }

  lemma Concatenated(sums: Sums, start: seq<byte>, header: seq<byte>, digest: Digest, header': seq<byte>, crc: seq<byte>)
    requires |header| == 4 && |header'| == 4 && |crc| == 4
    requires header == AttributeHeader(MESSAGE_INTEGRITY, 20) && header' == AttributeHeader(FINGERPRINT, 4)
    requires crc == sums.crc(start + header + digest)
    ensures SealedAt(sums, start + header + digest + header' + crc, |start|, start, digest)
  {
    var f := start + header + digest;
    assert (f + header' + crc)[..|start| + 24] == f;
  }

  lemma SealedParts(sums: Sums, pwd: seq<byte>, b: seq<byte>)
    requires Aligned(b)
    ensures SealedAt(sums, Sealed(sums, pwd, b), |b|, Put(b, 2, LengthField(|b| + 32)), sums.hmac(pwd, IntegrityInput(b)))
  {
    var digest: Digest := sums.hmac(pwd, IntegrityInput(b));
    IntegrityParts(sums, pwd, b);
    SealedFromParts(sums, b, digest, WithIntegrity(sums.hmac, pwd, b));
  }

  lemma PutAgainInFront(b: seq<byte>, x: seq<byte>, y: seq<byte>, header: seq<byte>, digest: seq<byte>)
    requires |x| == 2 && |y| == 2 && |b| >= 4
    ensures Put(Put(b, 2, x) + header + digest, 2, y) == Put(b, 2, y) + header + digest
  {
    PutInFront(Put(b, 2, x) + header, digest, 2, y);
    PutInFront(Put(b, 2, x), header, 2, y);
    PutTwice(b, 2, x, y);
  }

  lemma SealedFromParts(sums: Sums, b: seq<byte>, digest: Digest, w: seq<byte>)
    requires Aligned(b) && w == IntegrityInput(b) + AttributeHeader(MESSAGE_INTEGRITY, 20) + digest
    ensures SealedAt(sums, WithFingerprint(sums.crc, w), |b|, Put(b, 2, LengthField(|b| + 32)), digest)
  {
    var start, header := Put(b, 2, LengthField(|b| + 32)), AttributeHeader(MESSAGE_INTEGRITY, 20);
    var f := start + header + digest;
    PutAgainInFront(b, LengthField(|b| + 24), LengthField(|b| + 32), header, digest);
    FingerprintParts(sums, w, f);
    Concatenated(sums, start, header, digest, AttributeHeader(FINGERPRINT, 4), sums.crc(f));
  }

  lemma HeaderReads(msg: seq<byte>, ptr: nat, kind: uint16, length: uint16)
    requires ptr + 4 <= |msg| && msg[ptr..ptr + 4] == AttributeHeader(kind, length)
    ensures Kind(msg, ptr) == kind && Length(msg, ptr) == length
  {
    RoundTrip16(kind);
    RoundTrip16(length);
    assert msg[ptr] == msg[ptr..ptr + 4][0] && msg[ptr + 1] == msg[ptr..ptr + 4][1];
    assert msg[ptr + 2] == msg[ptr..ptr + 4][2] && msg[ptr + 3] == msg[ptr..ptr + 4][3];
  }

  /** What the parser hashes is what the builder hashed, although adding the fingerprint has changed
      the length field since. */
  lemma HashedAlike(sums: Sums, pwd: seq<byte>, b: seq<byte>)
    requires Aligned(b)
    ensures |Sealed(sums, pwd, b)| == |b| + 32
    ensures HashedCopy(Sealed(sums, pwd, b), |b|, 20) == IntegrityInput(b)
  {
    SealedParts(sums, pwd, b);
    PutTwice(b, 2, LengthField(|b| + 32), LengthField(|b| + 24));
  }

  lemma FingerprintStep(m: seq<byte>, ptr: nat, st: Parsed, lookup: Lookup, sums: Sums)
    requires MSG_HEADER_SIZE <= ptr && |m| == ptr + 8 && m[ptr..ptr + 4] == AttributeHeader(FINGERPRINT, 4)
    requires m[ptr + 4..] == sums.crc(m[..ptr])
    ensures ParseAttributes(m, ptr, st, lookup, sums) == Some(st)
  {
    HeaderReads(m, ptr, FINGERPRINT, 4);
    assert Value(m, ptr) == m[ptr + 4..];
    FingerprintAccepted(m, ptr, Value(m, ptr), st, lookup, sums);
  }

  lemma FingerprintAccepted(m: seq<byte>, ptr: nat, value: seq<byte>, st: Parsed, lookup: Lookup, sums: Sums)
    requires 4 <= ptr <= |m| && value == sums.crc(m[..ptr])
    ensures Checked(m, ptr, FINGERPRINT, value, st, lookup, sums) == Some(st)
  {
  }

  lemma IntegrityChecked(m: seq<byte>, ptr: nat, kind: uint16, value: seq<byte>, st: Parsed, lookup: Lookup, sums: Sums)
    requires 4 <= ptr <= |m| && kind == MESSAGE_INTEGRITY && |value| == 20
    ensures Checked(m, ptr, kind, value, st, lookup, sums) ==
            if st.userName != [] && sums.hmac(st.conn.localPwd, HashedCopy(m, ptr, 20)) == value then Some(st) else None
  {
  }

  lemma IntegrityReads(m: seq<byte>, ptr: nat, digest: Digest)
    requires |m| >= ptr + 24 && m[ptr..ptr + 4] == AttributeHeader(MESSAGE_INTEGRITY, 20) && m[ptr + 4..ptr + 24] == digest
    ensures AttributeAt(m, ptr) && Kind(m, ptr) == MESSAGE_INTEGRITY && Value(m, ptr) == digest && After(m, ptr) == ptr + 24
  {
    HeaderReads(m, ptr, MESSAGE_INTEGRITY, 20);
  }

  lemma IntegrityStep(m: seq<byte>, ptr: nat, digest: Digest, st: Parsed, lookup: Lookup, sums: Sums)
    requires 4 <= ptr < |m| && AttributeAt(m, ptr) && After(m, ptr) == ptr + 24
    requires Kind(m, ptr) == MESSAGE_INTEGRITY && Value(m, ptr) == digest
    ensures ParseAttributes(m, ptr, st, lookup, sums) ==
            if st.userName != [] && sums.hmac(st.conn.localPwd, HashedCopy(m, ptr, 20)) == digest
            then ParseAttributes(m, ptr + 24, st, lookup, sums) else None
  {
    var checked := Checked(m, ptr, MESSAGE_INTEGRITY, digest, st, lookup, sums);
    IntegrityChecked(m, ptr, MESSAGE_INTEGRITY, digest, st, lookup, sums);
    OneAttribute(m, ptr, MESSAGE_INTEGRITY, digest, ptr + 24, st, lookup, sums, checked);
  }

  lemma OneAttribute(m: seq<byte>, ptr: nat, kind: uint16, value: seq<byte>, next: nat, st: Parsed, lookup: Lookup, sums: Sums,
                     checked: Option<Parsed>)
    requires 4 <= ptr < |m| && AttributeAt(m, ptr) && Kind(m, ptr) == kind && Value(m, ptr) == value && After(m, ptr) == next
    requires checked == Checked(m, ptr, kind, value, st, lookup, sums)
    ensures ParseAttributes(m, ptr, st, lookup, sums) ==
            if checked.None? then None else ParseAttributes(m, next, checked.value, lookup, sums)
  {
  }

  lemma SealedAtParses(m: seq<byte>, n: nat, start: seq<byte>, digest: Digest, st: Parsed, lookup: Lookup, sums: Sums)
    requires MSG_HEADER_SIZE <= n && SealedAt(sums, m, n, start, digest)
    ensures ParseAttributes(m, n, st, lookup, sums) ==
            if st.userName != [] && sums.hmac(st.conn.localPwd, HashedCopy(m, n, 20)) == digest then Some(st) else None
  {
    IntegrityReads(m, n, digest);
    IntegrityStep(m, n, digest, st, lookup, sums);
    FingerprintStep(m, n + 24, st, lookup, sums);
  }

  /** From the integrity attribute on, the parser goes through exactly two more attributes to the end
      of the message, and accepts if and only if there was a user name and the password found for it
      gives the same HMAC.  The fingerprint always matches. */
  lemma SealedParses(sums: Sums, pwd: seq<byte>, b: seq<byte>, st: Parsed, lookup: Lookup)
    requires Aligned(b)
    ensures ParseAttributes(Sealed(sums, pwd, b), |b|, st, lookup, sums) ==
            if st.userName != [] && sums.hmac(st.conn.localPwd, IntegrityInput(b)) == sums.hmac(pwd, IntegrityInput(b))
            then Some(st) else None
  {
    SealedParts(sums, pwd, b);
    HashedAlike(sums, pwd, b);
    SealedAtParses(Sealed(sums, pwd, b), |b|, Put(b, 2, LengthField(|b| + 32)), sums.hmac(pwd, IntegrityInput(b)), st, lookup, sums);
  }

  // --- the attributes of a reply ---

  datatype Attribute = Attribute(kind: uint16, value: seq<byte>)

  // From one place to another the message consists of exactly these attributes, padded.
  predicate Tiled(msg: seq<byte>, from: nat, to: nat, attrs: seq<Attribute>)
    decreases |attrs|
  {
    if attrs == [] then from == to
    else
      && from < |msg| && AttributeAt(msg, from) && to <= |msg|
      && Kind(msg, from) == attrs[0].kind && Value(msg, from) == attrs[0].value
      && from + ATTRIBUTE_HEADER_SIZE + Length(msg, from) <= After(msg, from) <= to
      && Tiled(msg, After(msg, from), to, attrs[1..])
  }

  // Attributes that end aligned are there in any message that has the same bytes.
  lemma {:induction false} TiledKept(m: seq<byte>, m': seq<byte>, from: nat, to: nat, attrs: seq<Attribute>)
    requires 4 <= from <= to <= |m| && to <= |m'| && m[from..to] == m'[from..to] && Tiled(m, from, to, attrs)
    ensures Tiled(m', from, to, attrs)
    decreases |attrs|
  {
    if attrs != [] {
      SameAttribute(m, m', from, to);
      var next := After(m, from);
      assert m[next..to] == m[from..to][next - from..] == m'[from..to][next - from..] == m'[next..to];
      TiledKept(m, m', next, to, attrs[1..]);
    }
  }

  lemma SameAttribute(m: seq<byte>, m': seq<byte>, from: nat, to: nat)
    requires from <= to <= |m| && to <= |m'| && m[from..to] == m'[from..to]
    requires from < to && AttributeAt(m, from)
    requires from + ATTRIBUTE_HEADER_SIZE + Length(m, from) <= After(m, from) <= to
    ensures AttributeAt(m', from) && Kind(m', from) == Kind(m, from) && Value(m', from) == Value(m, from)
    ensures After(m', from) == After(m, from)
  {
    forall i | from <= i < to
      ensures m[i] == m'[i]
    {
      assert m[i] == m[from..to][i - from] == m'[from..to][i - from];
    }
  }

  lemma {:induction false} TiledTogether(m: seq<byte>, from: nat, mid: nat, to: nat, a: seq<Attribute>, b: seq<Attribute>)
    requires mid <= to <= |m| && Tiled(m, from, mid, a) && Tiled(m, mid, to, b)
    ensures Tiled(m, from, to, a + b)
    decreases |a|
  {
    if a == [] {
      assert a + b == b;
    } else {
      TiledTogether(m, After(m, from), mid, to, a[1..], b);
      TiledInFront(m, from, to, a[0], a[1..] + b);
      assert a + b == [a[0]] + (a[1..] + b);
    }
  }

  lemma TiledInFront(m: seq<byte>, from: nat, to: nat, attr: Attribute, rest: seq<Attribute>)
    requires from < |m| && AttributeAt(m, from) && to <= |m| && Kind(m, from) == attr.kind && Value(m, from) == attr.value
    requires from + ATTRIBUTE_HEADER_SIZE + Length(m, from) <= After(m, from) <= to && Tiled(m, After(m, from), to, rest)
    ensures Tiled(m, from, to, [attr] + rest)
  {
    assert ([attr] + rest)[1..] == rest;
  }

  lemma OneTile(m: seq<byte>, from: nat, kind: uint16, value: seq<byte>)
    requires |value| % 4 == 0 && |value| <= 65532 && from + 4 + |value| <= |m|
    requires m[from..from + 4] == AttributeHeader(kind, |value|) && m[from + 4..from + 4 + |value|] == value
    ensures Tiled(m, from, from + 4 + |value|, [Attribute(kind, value)])
  {
    HeaderReads(m, from, kind, |value|);
    assert Value(m, from) == value;
    assert Tiled(m, After(m, from), from + 4 + |value|, []);
  }

  // What the builder keeps: the buffer is the header and these attributes, up to its end.
  predicate Built(b: seq<byte>, attrs: seq<Attribute>) {
    MSG_HEADER_SIZE <= |b| && |b| % 4 == 0 && Tiled(b, MSG_HEADER_SIZE, |b|, attrs)
  }

  // Another buffer with the same attributes, and one more behind them.
  lemma BuiltMore(b: seq<byte>, attrs: seq<Attribute>, m: seq<byte>, kind: uint16, value: seq<byte>)
    requires Built(b, attrs) && |value| % 4 == 0 && |value| <= 65532 && |m| == |b| + 4 + |value|
    requires m[MSG_HEADER_SIZE..|b|] == b[MSG_HEADER_SIZE..]
    requires m[|b|..|b| + 4] == AttributeHeader(kind, |value|) && m[|b| + 4..] == value
    ensures Built(m, attrs + [Attribute(kind, value)])
  {
    TilesMore(b, attrs, m, |b|, |m|, kind, value);
    StaysAligned(|b|, |value|);
  }

  lemma StaysAligned(n: nat, k: nat)
    requires n % 4 == 0 && k % 4 == 0
    ensures (n + 4 + k) % 4 == 0
  {
  }

  lemma TilesMore(b: seq<byte>, attrs: seq<Attribute>, m: seq<byte>, mid: nat, end: nat, kind: uint16, value: seq<byte>)
    requires MSG_HEADER_SIZE <= mid == |b| && end == |m| == mid + 4 + |value| && |value| % 4 == 0 && |value| <= 65532
    requires Tiled(b, MSG_HEADER_SIZE, mid, attrs) && m[MSG_HEADER_SIZE..mid] == b[MSG_HEADER_SIZE..]
    requires m[mid..mid + 4] == AttributeHeader(kind, |value|) && m[mid + 4..] == value
    ensures Tiled(m, MSG_HEADER_SIZE, end, attrs + [Attribute(kind, value)])
  {
    assert b[MSG_HEADER_SIZE..mid] == b[MSG_HEADER_SIZE..];
    TiledKept(b, m, MSG_HEADER_SIZE, mid, attrs);
    assert m[mid + 4..mid + 4 + |value|] == m[mid + 4..];
    OneTile(m, mid, kind, value);
    TiledTogether(m, MSG_HEADER_SIZE, mid, end, attrs, [Attribute(kind, value)]);
  }

  lemma AppendBuilds(b: seq<byte>, attrs: seq<Attribute>, kind: uint16, value: seq<byte>)
    requires Built(b, attrs) && |b| <= 65532 && |value| % 4 == 0 && |value| <= 65532
    ensures Built(Append(b, kind, value), attrs + [Attribute(kind, value)])
    ensures |Append(b, kind, value)| == |b| + 4 + |value| && Append(b, kind, value)[..|b|] == b
  {
    var m := Append(b, kind, value);
    assert Resize(b, |b|) == b;
    assert m[..|b|] == b;
    assert m[MSG_HEADER_SIZE..|b|] == b[MSG_HEADER_SIZE..];
    BuiltMore(b, attrs, m, kind, value);
  }

  // Also for the two attributes that rewrite the length field.
  lemma CoverBuilds(b: seq<byte>, attrs: seq<Attribute>, kind: uint16, value: seq<byte>)
    requires Built(b, attrs) && |b| <= 65532 && |value| % 4 == 0 && |value| <= 65532
    ensures var m := Put(b, 2, LengthField(|b| + 4 + |value|)) + AttributeHeader(kind, |value|) + value;
            Built(m, attrs + [Attribute(kind, value)])
  {
    var start := Put(b, 2, LengthField(|b| + 4 + |value|));
    var m := start + AttributeHeader(kind, |value|) + value;
    assert m[MSG_HEADER_SIZE..|b|] == start[MSG_HEADER_SIZE..] == b[MSG_HEADER_SIZE..];
    BuiltMore(b, attrs, m, kind, value);
  }

  lemma IntegrityBuilds(sums: Sums, pwd: seq<byte>, b: seq<byte>, attrs: seq<Attribute>)
    requires Built(b, attrs) && |b| + 32 < 0x1_0000
    ensures |WithIntegrity(sums.hmac, pwd, b)| == |b| + 24
    ensures Built(WithIntegrity(sums.hmac, pwd, b), attrs + [Attribute(MESSAGE_INTEGRITY, sums.hmac(pwd, IntegrityInput(b)))])
  {
    IntegrityParts(sums, pwd, b);
    CoverBuilds(b, attrs, MESSAGE_INTEGRITY, sums.hmac(pwd, IntegrityInput(b)));
  }

  lemma FingerprintBuilds(sums: Sums, b: seq<byte>, attrs: seq<Attribute>)
    requires Built(b, attrs) && |b| <= 65532
    ensures var f := Put(b, 2, LengthField(|b| + 8));
            && |WithFingerprint(sums.crc, b)| == |b| + 8 && WithFingerprint(sums.crc, b)[..|b|] == f
            && Built(WithFingerprint(sums.crc, b), attrs + [Attribute(FINGERPRINT, sums.crc(f))])
  {
    var f := Put(b, 2, LengthField(|b| + 8));
    FingerprintParts(sums, b, f);
    CoverBuilds(b, attrs, FINGERPRINT, sums.crc(f));
    assert (f + AttributeHeader(FINGERPRINT, 4) + sums.crc(f))[..|b|] == f;
  }

  // --- what attributes say ---

  predicate Has(attrs: seq<Attribute>, kind: uint16) {
    exists i | 0 <= i < |attrs| :: attrs[i].kind == kind
  }

  // The value of the last attribute of this kind, if there is one.
  function LastValue(attrs: seq<Attribute>, kind: uint16): seq<byte> {
    var n := |attrs| - 1;
    if attrs == [] then [] else if attrs[n].kind == kind then attrs[n].value else LastValue(attrs[..n], kind)
  }

  predicate LastOf(attrs: seq<Attribute>, kind: uint16, i: nat) {
    i < |attrs| && attrs[i].kind == kind && forall j | i < j < |attrs| :: attrs[j].kind != kind
  }

  lemma {:induction false} LastValueIsLast(attrs: seq<Attribute>, kind: uint16, i: nat)
    requires LastOf(attrs, kind, i)
    ensures LastValue(attrs, kind) == attrs[i].value
  {
    if i < |attrs| - 1 {
      LastValueIsLast(attrs[..|attrs| - 1], kind, i);
    }
  }

  lemma {:induction false} NoneLast(attrs: seq<Attribute>, kind: uint16)
    requires !Has(attrs, kind)
    ensures LastValue(attrs, kind) == []
  {
    if attrs != [] {
      assert attrs[|attrs| - 1].kind != kind;
      NoneLast(attrs[..|attrs| - 1], kind);
    }
  }

  lemma HasMore(attrs: seq<Attribute>, attr: Attribute, kind: uint16)
    ensures Has(attrs + [attr], kind) <==> Has(attrs, kind) || attr.kind == kind
  {
    var all := attrs + [attr];
    assert all[|attrs|] == attr;
    assert forall i | 0 <= i < |attrs| :: all[i] == attrs[i];
  }

  // A user name with something in front of its first colon.
  predicate Ufragged(name: seq<byte>) {
    exists i | 0 < i < |name| :: name[i] == COLON && name[0] != COLON
  }

  // Nothing is wrong with the attribute by itself: if it has to be understood it is one of six, and
  // those with a fixed length have it.
  predicate Acceptable(attr: Attribute, lookup: Lookup) {
    && (attr.kind < 0x8000 ==> attr.kind in {0x0001, 0x0006, 0x0008, 0x0020, 0x0024, 0x0025})
    && (attr.kind == USERNAME ==> Ufragged(attr.value) && lookup(attr.value).Some?)
    && (attr.kind == MESSAGE_INTEGRITY ==> |attr.value| == 20)
    && (attr.kind == USE_CANDIDATE ==> |attr.value| == 0)
    && (attr.kind == ICE_CONTROLLING ==> |attr.value| == 8)
    && (attr.kind == FINGERPRINT ==> |attr.value| == 4)
  }

  // What a message with these attributes says.
  function Meaning(attrs: seq<Attribute>, lookup: Lookup): Parsed {
    var name := LastValue(attrs, USERNAME);
    var conn := if Has(attrs, USERNAME) && lookup(name).Some? then lookup(name).value else NO_CONN;
    Parsed(name, conn, false, Has(attrs, USE_CANDIDATE), Has(attrs, ICE_CONTROLLING), Has(attrs, USERNAME))
  }

  // The sums are right of an attribute at this place of the message, behind these.
  predicate SumsRight(msg: seq<byte>, at: nat, before: seq<Attribute>, attr: Attribute, lookup: Lookup, sums: Sums)
    requires 4 <= at <= |msg|
  {
    && (attr.kind == MESSAGE_INTEGRITY ==>
          Has(before, USERNAME) && sums.hmac(Meaning(before, lookup).conn.localPwd, HashedCopy(msg, at, 20)) == attr.value)
    && (attr.kind == FINGERPRINT ==> sums.crc(msg[..at]) == attr.value)
  }

  predicate Named(attrs: seq<Attribute>) {
    Has(attrs, USERNAME) ==> LastValue(attrs, USERNAME) != []
  }

  lemma LastOfMore(before: seq<Attribute>, attr: Attribute, kind: uint16)
    ensures LastValue(before + [attr], kind) == if attr.kind == kind then attr.value else LastValue(before, kind)
  {
    assert (before + [attr])[..|before|] == before;
  }

  lemma MeansMore(before: seq<Attribute>, attr: Attribute, lookup: Lookup)
    ensures var was, now := Meaning(before, lookup), Meaning(before + [attr], lookup);
            && now.useCandidate == (was.useCandidate || attr.kind == USE_CANDIDATE)
            && now.iceControlling == (was.iceControlling || attr.kind == ICE_CONTROLLING)
            && now.knownClient == (was.knownClient || attr.kind == USERNAME)
            && now.userName == (if attr.kind == USERNAME then attr.value else was.userName)
            && (attr.kind != USERNAME ==> now.conn == was.conn)
            && (attr.kind == USERNAME && lookup(attr.value).Some? ==> now.conn == lookup(attr.value).value)
  {
    HasMore(before, attr, USE_CANDIDATE);
    HasMore(before, attr, ICE_CONTROLLING);
    HasMore(before, attr, USERNAME);
    LastOfMore(before, attr, USERNAME);
  }

  lemma ColonInside(name: seq<byte>)
    ensures Ufragged(name) <==> COLON in name && name[0] != COLON
  {
    if COLON in name && name[0] != COLON {
      var i :| 0 <= i < |name| && name[i] == COLON;
      assert 0 < i < |name|;
    }
  }

  // The switch does what the attribute says: from the meaning of those before to that of one more.
  lemma CheckedMeans(msg: seq<byte>, at: nat, before: seq<Attribute>, attr: Attribute, lookup: Lookup, sums: Sums)
    requires 4 <= at <= |msg| && |attr.value| < 0x1_0000 && Named(before)
    ensures Checked(msg, at, attr.kind, attr.value, Meaning(before, lookup), lookup, sums) ==
            if Acceptable(attr, lookup) && SumsRight(msg, at, before, attr, lookup, sums)
            then Some(Meaning(before + [attr], lookup)) else None
    ensures Acceptable(attr, lookup) ==> Named(before + [attr])
  {
    ColonInside(attr.value);
    MeansMore(before, attr, lookup);
    HasMore(before, attr, USERNAME);
    if !Has(before, USERNAME) {
      NoneLast(before, USERNAME);
    }
  }

  // --- a whole request ---

  // Attributes whose check does not look at the rest of the message.
  predicate Plain(attr: Attribute) {
    attr.kind != MESSAGE_INTEGRITY && attr.kind != FINGERPRINT && |attr.value| < 0x1_0000
  }

  predicate AllPlain(attrs: seq<Attribute>) {
    forall i | 0 <= i < |attrs| :: Plain(attrs[i])
  }

  function CheckedAll(attrs: seq<Attribute>, st: Parsed, lookup: Lookup, sums: Sums): Option<Parsed>
    requires AllPlain(attrs)
  {
    if attrs == [] then Some(st)
    else match Checked(Zeros(4), 4, attrs[0].kind, attrs[0].value, st, lookup, sums)
      case None => None
      case Some(st') => CheckedAll(attrs[1..], st', lookup, sums)
  }

  lemma CheckedPlain(m: seq<byte>, ptr: nat, attr: Attribute, st: Parsed, lookup: Lookup, sums: Sums)
    requires 4 <= ptr <= |m| && Plain(attr)
    ensures Checked(m, ptr, attr.kind, attr.value, st, lookup, sums) == Checked(Zeros(4), 4, attr.kind, attr.value, st, lookup, sums)
  {
  }

  lemma {:induction false} ParseTiled(m: seq<byte>, from: nat, to: nat, attrs: seq<Attribute>, st: Parsed, lookup: Lookup, sums: Sums)
    requires 4 <= from && Tiled(m, from, to, attrs) && AllPlain(attrs)
    ensures ParseAttributes(m, from, st, lookup, sums) ==
            var checked := CheckedAll(attrs, st, lookup, sums);
            if checked.None? then None else ParseAttributes(m, to, checked.value, lookup, sums)
    decreases |attrs|
  {
    if attrs != [] {
      assert Plain(attrs[0]) && AllPlain(attrs[1..]);
      CheckedPlain(m, from, attrs[0], st, lookup, sums);
      var checked := Checked(Zeros(4), 4, attrs[0].kind, attrs[0].value, st, lookup, sums);
      OnAttribute(m, from, st, lookup, sums, checked);
      if checked.Some? {
        ParseTiled(m, After(m, from), to, attrs[1..], checked.value, lookup, sums);
      }
    }
  }

  lemma CheckedFirst(before: seq<Attribute>, attrs: seq<Attribute>, lookup: Lookup, sums: Sums)
    requires attrs != [] && Plain(attrs[0]) && AllPlain(attrs) && Named(before)
    ensures CheckedAll(attrs, Meaning(before, lookup), lookup, sums) ==
            if Acceptable(attrs[0], lookup) then CheckedAll(attrs[1..], Meaning(before + [attrs[0]], lookup), lookup, sums) else None
    ensures Acceptable(attrs[0], lookup) ==> Named(before + [attrs[0]])
  {
    CheckedMeans(Zeros(4), 4, before, attrs[0], lookup, sums);
  }

  lemma {:induction false} CheckedAllMeans(before: seq<Attribute>, attrs: seq<Attribute>, lookup: Lookup, sums: Sums)
    requires AllPlain(attrs) && Named(before)
    ensures CheckedAll(attrs, Meaning(before, lookup), lookup, sums) ==
            if AllAcceptable(attrs, lookup) then Some(Meaning(before + attrs, lookup)) else None
    ensures AllAcceptable(attrs, lookup) ==> Named(before + attrs)
    decreases |attrs|
  {
    if attrs == [] {
      assert before + attrs == before;
    } else {
      assert Plain(attrs[0]) && AllPlain(attrs[1..]);
      CheckedFirst(before, attrs, lookup, sums);
      if Acceptable(attrs[0], lookup) {
        CheckedAllMeans(before + [attrs[0]], attrs[1..], lookup, sums);
        assert before + [attrs[0]] + attrs[1..] == before + attrs;
        assert attrs == [attrs[0]] + attrs[1..];
      }
    }
  }

  predicate AllAcceptable(attrs: seq<Attribute>, lookup: Lookup) {
    forall i | 0 <= i < |attrs| :: Acceptable(attrs[i], lookup)
  }

  lemma AttributesParse(m: seq<byte>, to: nat, attrs: seq<Attribute>, lookup: Lookup, sums: Sums)
    requires Tiled(m, MSG_HEADER_SIZE, to, attrs) && AllPlain(attrs)
    ensures ParseAttributes(m, MSG_HEADER_SIZE, FRESH, lookup, sums) ==
            if AllAcceptable(attrs, lookup) then ParseAttributes(m, to, Meaning(attrs, lookup), lookup, sums) else None
    ensures AllAcceptable(attrs, lookup) ==> (Has(attrs, USERNAME) <==> Meaning(attrs, lookup).userName != [])
  {
    CheckedAllMeans([], attrs, lookup, sums);
    assert Meaning([], lookup) == FRESH && [] + attrs == attrs;
    ParseTiled(m, MSG_HEADER_SIZE, to, attrs, FRESH, lookup, sums);
    if !Has(attrs, USERNAME) {
      NoneLast(attrs, USERNAME);
    }
  }

  lemma SealedTiles(b: seq<byte>, attrs: seq<Attribute>, pwd: seq<byte>, sums: Sums, m: seq<byte>)
    requires Built(b, attrs) && |b| + 32 < 0x1_0000 && m == Sealed(sums, pwd, b)
    ensures Tiled(m, MSG_HEADER_SIZE, |b|, attrs)
  {
    SealedParts(sums, pwd, b);
    var start := Put(b, 2, LengthField(|b| + 32));
    assert m[MSG_HEADER_SIZE..|b|] == m[..|b|][MSG_HEADER_SIZE..] == start[MSG_HEADER_SIZE..] == b[MSG_HEADER_SIZE..|b|];
    TiledKept(b, m, MSG_HEADER_SIZE, |b|, attrs);
  }

  /** A request built from any attributes, integrity and fingerprint parses to what these attributes
      say, if each of them is acceptable, one is a user name, and the password found for that name
      gives the HMAC; otherwise it is refused. */
  lemma RequestParses(b: seq<byte>, attrs: seq<Attribute>, pwd: seq<byte>, lookup: Lookup, sums: Sums, m: seq<byte>)
    requires Built(b, attrs) && AllPlain(attrs) && |b| + 32 < 0x1_0000 && m == Sealed(sums, pwd, b)
    ensures ParseAttributes(m, MSG_HEADER_SIZE, FRESH, lookup, sums) ==
            var st := Meaning(attrs, lookup);
            if AllAcceptable(attrs, lookup) && Has(attrs, USERNAME)
               && sums.hmac(st.conn.localPwd, IntegrityInput(b)) == sums.hmac(pwd, IntegrityInput(b))
            then Some(st) else None
  {
    SealedTiles(b, attrs, pwd, sums, m);
    AttributesParse(m, |b|, attrs, lookup, sums);
    if AllAcceptable(attrs, lookup) {
      SealedParses(sums, pwd, b, Meaning(attrs, lookup), lookup);
    }
  }

  // The header fits the message.
  predicate HeaderFits(m: seq<byte>, messageType: uint16) {
    && MSG_HEADER_SIZE <= |m| < 0x1_0000 && m[..2] == Be16(messageType) && m[2..4] == LengthField(|m|)
    && m[4..8] == MAGIC_COOKIE
  }

  lemma HeaderAccepted(m: seq<byte>, messageType: uint16)
    requires HeaderFits(m, messageType) && messageType - ClassOf(messageType) == BINDING
    ensures ParseHeader(m) == Some(messageType)
  {
    RoundTrip16(messageType);
    RoundTrip16(|m| - MSG_HEADER_SIZE);
    assert m[0] == m[..2][0] && m[1] == m[..2][1];
    assert m[2] == m[2..4][0] && m[3] == m[2..4][1];
  }

  // Only the length field is rewritten.
  lemma CoveredHeaderFits(b: seq<byte>, m: seq<byte>, messageType: uint16)
    requires MSG_HEADER_SIZE <= |b| <= |m| < 0x1_0000 && m[..|b|] == Put(b, 2, LengthField(|m|))
    requires b[..2] == Be16(messageType) && b[4..8] == MAGIC_COOKIE
    ensures HeaderFits(m, messageType)
  {
    var start := Put(b, 2, LengthField(|m|));
    assert m[..2] == start[..2] && m[2..4] == start[2..4] && m[4..8] == start[4..8] by {
      assert m[..2] == m[..|b|][..2] && m[2..4] == m[..|b|][2..4] && m[4..8] == m[..|b|][4..8];
    }
  }

  lemma SealedHeader(b: seq<byte>, messageType: uint16, pwd: seq<byte>, sums: Sums)
    requires Aligned(b) && b[..2] == Be16(messageType) && b[4..8] == MAGIC_COOKIE
    requires messageType - ClassOf(messageType) == BINDING
    ensures ParseHeader(Sealed(sums, pwd, b)) == Some(messageType)
  {
    SealedParts(sums, pwd, b);
    CoveredHeaderFits(b, Sealed(sums, pwd, b), messageType);
    HeaderAccepted(Sealed(sums, pwd, b), messageType);
  }

  lemma HeaderThenAttributes(m: seq<byte>, messageType: uint16, lookup: Lookup, sums: Sums)
    requires ParseHeader(m) == Some(messageType)
    ensures Parse(m, lookup, sums) ==
            match ParseAttributes(m, MSG_HEADER_SIZE, FRESH, lookup, sums)
            case None => None
            case Some(parsed) => Some(StunMsg(BINDING, ClassOf(messageType), parsed))
  {
  }

  /** So the parser accepts the whole message, header and all: a message of one of the BINDING types
      that the builder has sealed parses to its class and to what its attributes say. */
  lemma MessageParses(b: seq<byte>, messageType: uint16, attrs: seq<Attribute>, pwd: seq<byte>, lookup: Lookup, sums: Sums,
                      m: seq<byte>)
    requires Built(b, attrs) && AllPlain(attrs) && |b| + 32 < 0x1_0000 && m == Sealed(sums, pwd, b)
    requires b[..2] == Be16(messageType) && b[4..8] == MAGIC_COOKIE
    requires messageType - ClassOf(messageType) == BINDING
    ensures Parse(m, lookup, sums) ==
            var st := Meaning(attrs, lookup);
            if AllAcceptable(attrs, lookup) && Has(attrs, USERNAME)
               && sums.hmac(st.conn.localPwd, IntegrityInput(b)) == sums.hmac(pwd, IntegrityInput(b))
            then Some(StunMsg(BINDING, ClassOf(messageType), st)) else None
  {
    SealedHeader(b, messageType, pwd, sums);
    HeaderThenAttributes(m, messageType, lookup, sums);
    RequestParses(b, attrs, pwd, lookup, sums, m);
  }

  // --- the fingerprint flag ---

  // The walk comes past an attribute of this kind.
  predicate Visits(msg: seq<byte>, ptr: nat, kind: uint16)
    decreases |msg| - ptr
  {
    ptr < |msg| && AttributeAt(msg, ptr) && (Kind(msg, ptr) == kind || Visits(msg, After(msg, ptr), kind))
  }

  lemma FlagKept(msg: seq<byte>, ptr: nat, kind: uint16, value: seq<byte>, st: Parsed, lookup: Lookup, sums: Sums)
    requires 4 <= ptr <= |msg| && |value| < 0x1_0000
    ensures var checked := Checked(msg, ptr, kind, value, st, lookup, sums);
            checked.Some? ==> checked.value.hasFingerprint == st.hasFingerprint
  {
  }

  lemma {:induction false} FlagNeverSet(msg: seq<byte>, ptr: nat, st: Parsed, lookup: Lookup, sums: Sums)
    requires ptr >= 4
    ensures var r := ParseAttributes(msg, ptr, st, lookup, sums); r.Some? ==> r.value.hasFingerprint == st.hasFingerprint
    decreases |msg| - ptr
  {
    if ptr < |msg| && AttributeAt(msg, ptr) {
      var checked := Checked(msg, ptr, Kind(msg, ptr), Value(msg, ptr), st, lookup, sums);
      FlagKept(msg, ptr, Kind(msg, ptr), Value(msg, ptr), st, lookup, sums);
      OnAttribute(msg, ptr, st, lookup, sums, checked);
      if checked.Some? {
        FlagNeverSet(msg, After(msg, ptr), checked.value, lookup, sums);
      }
    }
  }

  /** The parser never reports a fingerprint, so what it reports of an accepted message is right if
      and only if the message has none. */
  lemma FingerprintNotReported(msg: seq<byte>, lookup: Lookup, sums: Sums)
    ensures var r := Parse(msg, lookup, sums);
            r.Some? ==> && !r.value.parsed.hasFingerprint
                        && ((r.value.parsed.hasFingerprint <==> Visits(msg, MSG_HEADER_SIZE, FINGERPRINT))
                            <==> !Visits(msg, MSG_HEADER_SIZE, FINGERPRINT))
  {
    FlagNeverSet(msg, MSG_HEADER_SIZE, FRESH, lookup, sums);
  }

  lemma {:induction false} TiledVisits(m: seq<byte>, from: nat, to: nat, attrs: seq<Attribute>, i: nat)
    requires Tiled(m, from, to, attrs) && i < |attrs|
    ensures Visits(m, from, attrs[i].kind)
    decreases i
  {
    if i > 0 {
      TiledVisits(m, After(m, from), to, attrs[1..], i - 1);
    }
  }

  /** Every message that the builder has sealed has one. */
  lemma SealedVisits(sums: Sums, pwd: seq<byte>, b: seq<byte>, attrs: seq<Attribute>)
    requires Built(b, attrs) && |b| + 32 < 0x1_0000
    ensures Visits(Sealed(sums, pwd, b), MSG_HEADER_SIZE, FINGERPRINT)
  {
    var w := WithIntegrity(sums.hmac, pwd, b);
    var all := attrs + [Attribute(MESSAGE_INTEGRITY, sums.hmac(pwd, IntegrityInput(b)))];
    IntegrityBuilds(sums, pwd, b, attrs);
    FingerprintBuilds(sums, w, all);
    var m := Sealed(sums, pwd, b);
    var last := Attribute(FINGERPRINT, sums.crc(Put(w, 2, LengthField(|w| + 8))));
    TiledVisits(m, MSG_HEADER_SIZE, |m|, all + [last], |all|);
  }

  // --- create_stun_reply ---

  function ReplyStart(transId: seq<byte>, port: seq<byte>, addr: seq<byte>, ice: bool): seq<byte>
    requires |transId| >= 12 && |port| == 2 && (|addr| == 4 || |addr| == 16)
  {
    var b := WithXorMapped(Started(BINDING + SUCCESS_RESPONSE, transId), port, addr);
    if ice then Append(b, ICE_CONTROLLED, Zeros(8)) else b
  }

  function Reply(stun: StunMsg, transId: seq<byte>, port: seq<byte>, addr: seq<byte>, sums: Sums): seq<byte>
    requires |transId| >= 12 && |port| == 2 && (|addr| == 4 || |addr| == 16)
  {
    if stun.class_ != 0 || stun.method_ != BINDING then []
    else
      Finished(ReplyStart(transId, port, addr, stun.parsed.iceControlling), stun.parsed.conn.localPwd, sums)
  }

  method CreateStunReply(stun: StunMsg, transId: seq<byte>, port: seq<byte>, addr: seq<byte>, hmac: Hmac) returns (reply: seq<byte>)
    requires |transId| >= 12 && |port| == 2 && (|addr| == 4 || |addr| == 16)
    ensures reply == Reply(stun, transId, port, addr, Sums(hmac, FingerprintOf))
  {
    if stun.class_ == 0 {
      if stun.method_ == BINDING {
        var response := new StunMessageBuilder(BINDING + SUCCESS_RESPONSE, transId);
        response.AddXorMappedAddress(port, addr);
        if stun.parsed.iceControlling {
          response.AddIceControlled();
        }
        if stun.parsed.conn.localPwd != [] {
          response.AddMessageIntegrity(hmac, stun.parsed.conn.localPwd);
        }
        response.AddFingerprint();
        return response.buff;
      }
    }
    reply := [];
  }

  lemma StartedBuilt(messageType: uint16, transId: seq<byte>)
    requires |transId| >= 12
    ensures var b := Started(messageType, transId);
            && Built(b, []) && |b| == MSG_HEADER_SIZE && b[..2] == Be16(messageType)
            && b[4..8] == MAGIC_COOKIE && b[8..] == transId[..12]
  {
  }

  // The attributes a reply has before integrity and fingerprint.
  function StartAttributes(transId: seq<byte>, port: seq<byte>, addr: seq<byte>, ice: bool): seq<Attribute>
    requires |transId| >= 12 && |port| == 2 && (|addr| == 4 || |addr| == 16)
  {
    var b := Started(BINDING + SUCCESS_RESPONSE, transId);
    [Attribute(XOR_MAPPED_ADDRESS, XorMappedValue(b, port, Mapped(addr)))]
    + if ice then [Attribute(ICE_CONTROLLED, Zeros(8))] else []
  }

  lemma ReplyStartBuilt(transId: seq<byte>, port: seq<byte>, addr: seq<byte>, ice: bool)
    requires |transId| >= 12 && |port| == 2 && (|addr| == 4 || |addr| == 16)
    ensures var b := ReplyStart(transId, port, addr, ice);
            Built(b, StartAttributes(transId, port, addr, ice)) && |b| <= 64
  {
    var b := Started(BINDING + SUCCESS_RESPONSE, transId);
    var attr := Attribute(XOR_MAPPED_ADDRESS, XorMappedValue(b, port, Mapped(addr)));
    StartedBuilt(BINDING + SUCCESS_RESPONSE, transId);
    AppendBuilds(b, [], attr.kind, attr.value);
    assert [] + [attr] == [attr];
    if ice {
      AppendBuilds(WithXorMapped(b, port, addr), [attr], ICE_CONTROLLED, Zeros(8));
    } else {
      assert [attr] + [] == [attr];
    }
  }

  // What is put behind the start of a reply.
  function Finished(b: seq<byte>, pwd: seq<byte>, sums: Sums): seq<byte> {
    WithFingerprint(sums.crc, if pwd == [] then b else WithIntegrity(sums.hmac, pwd, b))
  }

  // The attributes behind those of the start.
  function FinishingAttributes(b: seq<byte>, pwd: seq<byte>, sums: Sums, reply: seq<byte>): seq<Attribute>
    requires |b| >= 4 && |reply| >= 8
  {
    (if pwd == [] then [] else [Attribute(MESSAGE_INTEGRITY, sums.hmac(pwd, IntegrityInput(b)))])
    + [Attribute(FINGERPRINT, sums.crc(reply[..|reply| - 8]))]
  }

  lemma FinishedWithIntegrity(b: seq<byte>, attrs: seq<Attribute>, pwd: seq<byte>, sums: Sums, w: seq<byte>, reply: seq<byte>)
    requires Built(b, attrs) && |b| + 32 < 0x1_0000 && pwd != []
    requires w == WithIntegrity(sums.hmac, pwd, b) && reply == WithFingerprint(sums.crc, w)
    ensures |reply| >= 8 && Built(reply, attrs + FinishingAttributes(b, pwd, sums, reply))
  {
    var integrity := Attribute(MESSAGE_INTEGRITY, sums.hmac(pwd, IntegrityInput(b)));
    IntegrityBuilds(sums, pwd, b, attrs);
    FingerprintBuilds(sums, w, attrs + [integrity]);
    assert attrs + [integrity] + [Attribute(FINGERPRINT, sums.crc(reply[..|reply| - 8]))]
        == attrs + FinishingAttributes(b, pwd, sums, reply);
  }

  lemma FinishedWithout(b: seq<byte>, attrs: seq<Attribute>, sums: Sums, reply: seq<byte>)
    requires Built(b, attrs) && |b| <= 65532 && reply == WithFingerprint(sums.crc, b)
    ensures |reply| >= 8 && Built(reply, attrs + FinishingAttributes(b, [], sums, reply))
  {
    FingerprintBuilds(sums, b, attrs);
    assert FinishingAttributes(b, [], sums, reply) == [Attribute(FINGERPRINT, sums.crc(reply[..|reply| - 8]))];
  }

  /** A reply consists, from the header exactly to its end, of the mapped address, ICE-CONTROLLED if
      the request was ICE-CONTROLLING, the integrity if there is a password, and the fingerprint;
      the fingerprint is that of all that precedes it. */
  lemma ReplyTiles(stun: StunMsg, transId: seq<byte>, port: seq<byte>, addr: seq<byte>, sums: Sums, start: seq<byte>, reply: seq<byte>)
    requires |transId| >= 12 && |port| == 2 && (|addr| == 4 || |addr| == 16)
    requires stun.class_ == 0 && stun.method_ == BINDING
    requires start == ReplyStart(transId, port, addr, stun.parsed.iceControlling)
    requires reply == Reply(stun, transId, port, addr, sums)
    ensures |start| >= 4 && |reply| >= 8
    ensures Built(reply, StartAttributes(transId, port, addr, stun.parsed.iceControlling)
                         + FinishingAttributes(start, stun.parsed.conn.localPwd, sums, reply))
  {
    var attrs := StartAttributes(transId, port, addr, stun.parsed.iceControlling);
    var pwd := stun.parsed.conn.localPwd;
    ReplyStartBuilt(transId, port, addr, stun.parsed.iceControlling);
    if pwd == [] {
      FinishedWithout(start, attrs, sums, reply);
    } else {
      FinishedWithIntegrity(start, attrs, pwd, sums, WithIntegrity(sums.hmac, pwd, start), reply);
    }
  }

  // The builder touches nothing of the header but its length.
  predicate SameHeader(a: seq<byte>, b: seq<byte>) {
    |a| >= MSG_HEADER_SIZE && |b| >= MSG_HEADER_SIZE && a[..2] == b[..2] && a[4..MSG_HEADER_SIZE] == b[4..MSG_HEADER_SIZE]
  }

  lemma CoveredSameHeader(b: seq<byte>, m: seq<byte>)
    requires MSG_HEADER_SIZE <= |b| <= |m| && m[..|b|] == Put(b, 2, LengthField(|m|))
    ensures SameHeader(m, b) && m[2..4] == LengthField(|m|)
  {
    var start := Put(b, 2, LengthField(|m|));
    assert m[..2] == m[..|b|][..2] == start[..2] && m[2..4] == m[..|b|][2..4] == start[2..4];
    assert m[4..MSG_HEADER_SIZE] == m[..|b|][4..MSG_HEADER_SIZE] == start[4..MSG_HEADER_SIZE];
  }

  lemma FinishedHeader(b: seq<byte>, pwd: seq<byte>, sums: Sums, m: seq<byte>)
    requires Aligned(b) && m == Finished(b, pwd, sums)
    ensures |m| == |b| + (if pwd == [] then 8 else 32) && SameHeader(m, b) && m[2..4] == LengthField(|m|)
  {
    if pwd == [] {
      var f := Put(b, 2, LengthField(|b| + 8));
      FingerprintParts(sums, b, f);
      assert (f + AttributeHeader(FINGERPRINT, 4) + sums.crc(f))[..|b|] == f;
    } else {
      SealedParts(sums, pwd, b);
    }
    CoveredSameHeader(b, m);
  }

  /** A reply has a header that the parser accepts, of a success response with the transaction id of
      the request. */
  lemma ReplyAnswers(stun: StunMsg, transId: seq<byte>, port: seq<byte>, addr: seq<byte>, sums: Sums)
    requires |transId| >= 12 && |port| == 2 && (|addr| == 4 || |addr| == 16)
    requires stun.class_ == 0 && stun.method_ == BINDING
    ensures var reply := Reply(stun, transId, port, addr, sums);
            && ParseHeader(reply) == Some(BINDING + SUCCESS_RESPONSE)
            && ClassOf(BINDING + SUCCESS_RESPONSE) == SUCCESS_RESPONSE
            && reply[8..MSG_HEADER_SIZE] == transId[..12]
  {
    var start := ReplyStart(transId, port, addr, stun.parsed.iceControlling);
    var reply := Reply(stun, transId, port, addr, sums);
    ReplyStartBuilt(transId, port, addr, stun.parsed.iceControlling);
    ReplyStartHeader(transId, port, addr, stun.parsed.iceControlling);
    FinishedHeader(start, stun.parsed.conn.localPwd, sums, reply);
    SuccessHeader(start, reply, transId[..12]);
  }

  lemma SuccessHeader(start: seq<byte>, reply: seq<byte>, transId: seq<byte>)
    requires SameHeader(reply, start) && |reply| < 0x1_0000 && reply[2..4] == LengthField(|reply|)
    requires start[..2] == Be16(BINDING + SUCCESS_RESPONSE) && start[4..MSG_HEADER_SIZE] == MAGIC_COOKIE + transId
    ensures ParseHeader(reply) == Some(BINDING + SUCCESS_RESPONSE)
    ensures ClassOf(BINDING + SUCCESS_RESPONSE) == SUCCESS_RESPONSE
    ensures reply[8..MSG_HEADER_SIZE] == transId
  {
    assert reply[4..8] == reply[4..MSG_HEADER_SIZE][..4];
    assert reply[8..MSG_HEADER_SIZE] == reply[4..MSG_HEADER_SIZE][4..];
    HeaderAccepted(reply, BINDING + SUCCESS_RESPONSE);
  }

  lemma ReplyStartHeader(transId: seq<byte>, port: seq<byte>, addr: seq<byte>, ice: bool)
    requires |transId| >= 12 && |port| == 2 && (|addr| == 4 || |addr| == 16)
    ensures var b := ReplyStart(transId, port, addr, ice);
            && |b| >= MSG_HEADER_SIZE && b[..2] == Be16(BINDING + SUCCESS_RESPONSE)
            && b[4..MSG_HEADER_SIZE] == MAGIC_COOKIE + transId[..12]
  {
    var b := Started(BINDING + SUCCESS_RESPONSE, transId);
    StartedBuilt(BINDING + SUCCESS_RESPONSE, transId);
    assert b[4..] == MAGIC_COOKIE + transId[..12];
    var b1 := WithXorMapped(b, port, addr);
    assert b1[..MSG_HEADER_SIZE] == b;
    var b2 := ReplyStart(transId, port, addr, ice);
    AppendBuilds(b, [], XOR_MAPPED_ADDRESS, XorMappedValue(b, port, Mapped(addr)));
    assert b2[..|b1|] == b1 by {
      if ice {
        AppendBuilds(b1, [] + [Attribute(XOR_MAPPED_ADDRESS, XorMappedValue(b, port, Mapped(addr)))], ICE_CONTROLLED, Zeros(8));
      }
    }
    assert b2[..MSG_HEADER_SIZE] == b2[..|b1|][..MSG_HEADER_SIZE] == b;
    assert b2[..2] == b[..2] && b2[4..MSG_HEADER_SIZE] == b2[..MSG_HEADER_SIZE][4..];
  }

  // --- the mapped address reads back ---

  lemma XorBytesTwice(a: seq<byte>, b: seq<byte>)
    requires |a| <= |b|
    ensures XorBytes(XorBytes(a, b), b) == a
  {
    forall i | 0 <= i < |a|
      ensures XorBytes(XorBytes(a, b), b)[i] == a[i]
    {
      ByteBits.XorTwice(a[i], b[i]);
    }
  }

  /** Undoing the exclusive or with the cookie and the transaction id gives the port and the address
      that were sent, an IPv4 address out of an IPv6 one. */
  lemma AddressReadsBack(b: seq<byte>, port: seq<byte>, addr: seq<byte>)
    requires |b| >= MSG_HEADER_SIZE && |port| == 2 && (|addr| == 4 || |addr| == 16)
    ensures var v, sent := XorMappedValue(b, port, Mapped(addr)), Mapped(addr);
            && XorBytes(v[2..4], b[4..6]) == port
            && XorBytes(v[4..], b[4..4 + |sent|]) == sent
            && (addr == sent || addr == IPV4_IN_6 + sent)
  {
    var sent := Mapped(addr);
    var v := XorMappedValue(b, port, sent);
    assert v[2..4] == XorBytes(port, b[4..6]) && v[4..] == XorBytes(sent, b[4..4 + |sent|]);
    XorBytesTwice(port, b[4..6]);
    XorBytesTwice(sent, b[4..4 + |sent|]);
    assert |addr| == 16 ==> addr == addr[..12] + addr[12..];
  }

  /** An address is sent as it is, except that an IPv4 address behind ten zero bytes and two of 255 is
      sent alone. */
  lemma MappedIsIPv4(addr: seq<byte>)
    requires |addr| == 4 || |addr| == 16
    ensures Mapped(addr) != addr <==> |addr| == 16 && addr[..12] == [0, 0, 0, 0, 0, 0, 0, 0, 0, 0, 255, 255]
    ensures Mapped(addr) != addr ==> Mapped(addr) == addr[12..]
  {
    assert IPV4_IN_6 == [0, 0, 0, 0, 0, 0, 0, 0, 0, 0, 255, 255];
  }

  // The family that sections 14.1 and 14.2 of RFC 8489 ask for.
  function Family(addr: seq<byte>): uint16 {
    if |addr| == 4 then 1 else 2
  }

  /** The family is the one for the address that was sent if and only if the address is IPv4, by
      itself or inside an IPv6 one. */
  lemma FamilyOnlyForIPv4(b: seq<byte>, port: seq<byte>, addr: seq<byte>)
    requires |b| >= MSG_HEADER_SIZE && |port| == 2 && (|addr| == 4 || |addr| == 16)
    ensures FromBe16(XorMappedValue(b, port, Mapped(addr))) == Family(Mapped(addr)) <==> |addr| == 4 || addr[..12] == IPV4_IN_6
  {
    RoundTrip16(1);
    var v := XorMappedValue(b, port, Mapped(addr));
    assert v[0] == Be16(1)[0] && v[1] == Be16(1)[1];
  }
}
