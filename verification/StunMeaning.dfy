/** What the STUN parser makes of any message, said of the attributes in it instead of by the loop. */
module StunMeaning {
  import opened Bytes
  import opened Stun
  import opened Wrappers

  // Where the attributes start that the walk from here comes past.
  function Places(msg: seq<byte>, ptr: nat): (places: seq<nat>)
    ensures forall i | 0 <= i < |places| :: ptr <= places[i] < |msg| && AttributeAt(msg, places[i])
    decreases |msg| - ptr
  {
    if ptr < |msg| && AttributeAt(msg, ptr) then [ptr] + Places(msg, After(msg, ptr)) else []
  }

  function AttributeOf(msg: seq<byte>, at: nat): Attribute
    requires AttributeAt(msg, at)
  {
    Attribute(Kind(msg, at), Stun.Value(msg, at))
  }

  function AttributesAt(msg: seq<byte>, places: seq<nat>): (attrs: seq<Attribute>)
    requires forall i | 0 <= i < |places| :: AttributeAt(msg, places[i])
    ensures |attrs| == |places| && forall i | 0 <= i < |attrs| :: attrs[i] == AttributeOf(msg, places[i])
  {
    seq(|places|, i requires 0 <= i < |places| => AttributeOf(msg, places[i]))
  }

  function Attributes(msg: seq<byte>, ptr: nat): seq<Attribute> {
    AttributesAt(msg, Places(msg, ptr))
  }

  // The walk gets to the end, as no attribute reaches beyond it.
  predicate Whole(msg: seq<byte>, ptr: nat)
    decreases |msg| - ptr
  {
    ptr >= |msg| || (AttributeAt(msg, ptr) && Whole(msg, After(msg, ptr)))
  }

  // The attribute is right at this place, behind these.
  predicate Right(msg: seq<byte>, at: nat, before: seq<Attribute>, attr: Attribute, lookup: Lookup, sums: Sums)
    requires 4 <= at <= |msg|
  {
    Acceptable(attr, lookup) && SumsRight(msg, at, before, attr, lookup, sums)
  }

  predicate EachRight(msg: seq<byte>, places: seq<nat>, before: seq<Attribute>, attrs: seq<Attribute>, lookup: Lookup, sums: Sums)
    requires |places| == |attrs| && forall i | 0 <= i < |places| :: 4 <= places[i] <= |msg|
  {
    forall i | 0 <= i < |places| :: Right(msg, places[i], before + attrs[..i], attrs[i], lookup, sums)
  }

  predicate AllRight(msg: seq<byte>, ptr: nat, before: seq<Attribute>, lookup: Lookup, sums: Sums)
    requires ptr >= 4
  {
    EachRight(msg, Places(msg, ptr), before, Attributes(msg, ptr), lookup, sums)
  }

  lemma RightShifted(msg: seq<byte>, at: nat, rest: seq<nat>, before: seq<Attribute>, attr: Attribute, others: seq<Attribute>,
                     i: nat, lookup: Lookup, sums: Sums)
    requires |rest| == |others| && i < |rest| && 4 <= rest[i] <= |msg|
    ensures var places, attrs := [at] + rest, [attr] + others;
            Right(msg, places[i + 1], before + attrs[..i + 1], attrs[i + 1], lookup, sums)
            == Right(msg, rest[i], before + [attr] + others[..i], others[i], lookup, sums)
  {
    assert before + ([attr] + others)[..i + 1] == before + [attr] + others[..i];
  }

  lemma EachRightOneByOne(msg: seq<byte>, at: nat, rest: seq<nat>, before: seq<Attribute>, attr: Attribute, others: seq<Attribute>,
                          lookup: Lookup, sums: Sums)
    requires |rest| == |others| && 4 <= at <= |msg| && forall i | 0 <= i < |rest| :: 4 <= rest[i] <= |msg|
    ensures EachRight(msg, [at] + rest, before, [attr] + others, lookup, sums) <==>
            Right(msg, at, before, attr, lookup, sums) && EachRight(msg, rest, before + [attr], others, lookup, sums)
  {
    var places, attrs := [at] + rest, [attr] + others;
    assert before + attrs[..0] == before;
    if EachRight(msg, places, before, attrs, lookup, sums) {
      assert Right(msg, places[0], before + attrs[..0], attrs[0], lookup, sums);
      forall i | 0 <= i < |rest|
        ensures Right(msg, rest[i], before + [attr] + others[..i], others[i], lookup, sums)
      {
        RightShifted(msg, at, rest, before, attr, others, i, lookup, sums);
      }
    } else {
      var i :| 0 <= i < |places| && !Right(msg, places[i], before + attrs[..i], attrs[i], lookup, sums);
      if i > 0 {
        RightShifted(msg, at, rest, before, attr, others, i - 1, lookup, sums);
      }
    }
  }

  lemma FirstAttribute(msg: seq<byte>, ptr: nat)
    requires ptr < |msg| && AttributeAt(msg, ptr)
    ensures Places(msg, ptr) == [ptr] + Places(msg, After(msg, ptr))
    ensures Attributes(msg, ptr) == [AttributeOf(msg, ptr)] + Attributes(msg, After(msg, ptr))
  {
  }

  // One attribute of the loop.
  lemma ParsedOne(msg: seq<byte>, ptr: nat, before: seq<Attribute>, lookup: Lookup, sums: Sums)
    requires 4 <= ptr < |msg| && AttributeAt(msg, ptr) && Named(before)
    ensures var attr := AttributeOf(msg, ptr);
            && ParseAttributes(msg, ptr, Meaning(before, lookup), lookup, sums) ==
               (if Acceptable(attr, lookup) && SumsRight(msg, ptr, before, attr, lookup, sums)
                then ParseAttributes(msg, After(msg, ptr), Meaning(before + [attr], lookup), lookup, sums) else None)
            && (Acceptable(attr, lookup) ==> Named(before + [attr]))
  {
    var attr := AttributeOf(msg, ptr);
    CheckedMeans(msg, ptr, before, attr, lookup, sums);
    OnAttribute(msg, ptr, Meaning(before, lookup), lookup, sums,
                Checked(msg, ptr, attr.kind, attr.value, Meaning(before, lookup), lookup, sums));
  }

  // What is said from here on, if nothing is wrong.
  function Said(msg: seq<byte>, ptr: nat, before: seq<Attribute>, lookup: Lookup, sums: Sums): Option<Parsed>
    requires ptr >= 4
  {
    if Whole(msg, ptr) && AllRight(msg, ptr, before, lookup, sums)
    then Some(Meaning(before + Attributes(msg, ptr), lookup)) else None
  }

  lemma SaidOneByOne(msg: seq<byte>, ptr: nat, before: seq<Attribute>, lookup: Lookup, sums: Sums)
    requires 4 <= ptr < |msg| && AttributeAt(msg, ptr)
    ensures var attr := AttributeOf(msg, ptr);
            Said(msg, ptr, before, lookup, sums) ==
            if Right(msg, ptr, before, attr, lookup, sums) then Said(msg, After(msg, ptr), before + [attr], lookup, sums) else None
  {
    var attr := AttributeOf(msg, ptr);
    var rest, others := Places(msg, After(msg, ptr)), Attributes(msg, After(msg, ptr));
    FirstAttribute(msg, ptr);
    EachRightOneByOne(msg, ptr, rest, before, attr, others, lookup, sums);
    assert before + [attr] + others == before + ([attr] + others);
  }

  lemma SaidAtEnd(msg: seq<byte>, ptr: nat, before: seq<Attribute>, lookup: Lookup, sums: Sums)
    requires 4 <= ptr && !(ptr < |msg| && AttributeAt(msg, ptr))
    ensures Said(msg, ptr, before, lookup, sums) == ParseAttributes(msg, ptr, Meaning(before, lookup), lookup, sums)
  {
    assert before + Attributes(msg, ptr) == before;
  }

  // From any place, with what was there before.
  lemma {:induction false} ParsedFrom(msg: seq<byte>, ptr: nat, before: seq<Attribute>, lookup: Lookup, sums: Sums)
    requires ptr >= 4 && Named(before)
    ensures ParseAttributes(msg, ptr, Meaning(before, lookup), lookup, sums) == Said(msg, ptr, before, lookup, sums)
    decreases |msg| - ptr
  {
    if ptr < |msg| && AttributeAt(msg, ptr) {
      var attr := AttributeOf(msg, ptr);
      SaidOneByOne(msg, ptr, before, lookup, sums);
      ParsedOne(msg, ptr, before, lookup, sums);
      if Right(msg, ptr, before, attr, lookup, sums) {
        ParsedFrom(msg, After(msg, ptr), before + [attr], lookup, sums);
      }
    } else {
      SaidAtEnd(msg, ptr, before, lookup, sums);
    }
  }

  /** The attributes of any message are accepted if and only if they get to its end, each of them is
      acceptable, and each sum is right; the message then says what they say together. */
  lemma AttributesMean(msg: seq<byte>, lookup: Lookup, sums: Sums)
    ensures ParseAttributes(msg, MSG_HEADER_SIZE, FRESH, lookup, sums) ==
            if Whole(msg, MSG_HEADER_SIZE) && AllRight(msg, MSG_HEADER_SIZE, [], lookup, sums)
            then Some(Meaning(Attributes(msg, MSG_HEADER_SIZE), lookup)) else None
  {
    assert Meaning([], lookup) == FRESH;
    ParsedFrom(msg, MSG_HEADER_SIZE, [], lookup, sums);
    assert [] + Attributes(msg, MSG_HEADER_SIZE) == Attributes(msg, MSG_HEADER_SIZE);
  }

  /** What the HMAC is computed of: the message up to the attribute, as it is but for its length field,
      and that says that the message ends with the attribute. */
  lemma WhatIsHashed(msg: seq<byte>, at: nat, k: nat)
    requires 4 <= at <= |msg| && at + 4 < 0x1_0000 && k < at
    ensures var copy := HashedCopy(msg, at, 20);
            && |copy| == at && (k != 2 && k != 3 ==> copy[k] == msg[k])
            && (at >= 16 ==> FromBe16(copy[2..]) + 20 == at + 4 + 20)
  {
    var copy := HashedCopy(msg, at, 20);
    if at >= 16 {
      RoundTrip16(at + 4);
      assert copy[2..][..2] == Be16(at + 4);
    }
  }

  // The header of a message of any length: the cookie as a number, and one of the four types.
  predicate HeaderRight(msg: seq<byte>) {
    && |msg| >= 20 && FromBe32(msg[4..]) == 0x2112_A442 && FromBe16(msg[2..]) + 20 == |msg|
    && FromBe16(msg) in {0x001, 0x011, 0x101, 0x111}
  }

  lemma CookieAsNumber(b: seq<byte>)
    requires |b| >= 4
    ensures FromBe32(b) == 0x2112_A442 <==> b[..4] == MAGIC_COOKIE
  {
    if FromBe32(b) == 0x2112_A442 {
      Bytes32(b[..4]);
    }
  }

  lemma HeaderMeans(msg: seq<byte>)
    ensures ParseHeader(msg) == if HeaderRight(msg) then Some(FromBe16(msg)) else None
    ensures HeaderRight(msg) ==> ClassOf(FromBe16(msg)) == FromBe16(msg) - 1
  {
    if |msg| >= MSG_HEADER_SIZE {
      CookieAsNumber(msg[4..]);
      assert msg[4..][..4] == msg[4..8];
    }
  }

  /** The parser accepts a message if and only if its header and its attributes are right.  It then
      reports the class, and what the attributes say. */
  lemma Accepted(msg: seq<byte>, lookup: Lookup, sums: Sums)
    ensures Parse(msg, lookup, sums) ==
            if HeaderRight(msg) && Whole(msg, MSG_HEADER_SIZE) && AllRight(msg, MSG_HEADER_SIZE, [], lookup, sums)
            then Some(StunMsg(BINDING, FromBe16(msg) - 1, Meaning(Attributes(msg, MSG_HEADER_SIZE), lookup))) else None
  {
    HeaderMeans(msg);
    AttributesMean(msg, lookup, sums);
  }

  lemma HasFirst(attr: Attribute, rest: seq<Attribute>, kind: uint16)
    ensures Has([attr] + rest, kind) <==> attr.kind == kind || Has(rest, kind)
  {
    var attrs := [attr] + rest;
    assert attrs[0] == attr && forall i | 0 <= i < |rest| :: attrs[i + 1] == rest[i];
  }

  lemma {:induction false} VisitsIsHas(msg: seq<byte>, ptr: nat, kind: uint16)
    ensures Visits(msg, ptr, kind) <==> Has(Attributes(msg, ptr), kind)
    decreases |msg| - ptr
  {
    if ptr < |msg| && AttributeAt(msg, ptr) {
      var rest := Attributes(msg, After(msg, ptr));
      VisitsIsHas(msg, After(msg, ptr), kind);
      FirstAttribute(msg, ptr);
      HasFirst(AttributeOf(msg, ptr), rest, kind);
    }
  }

  /** What is reported of an accepted message: each flag if and only if the walk comes past an
      attribute of its kind, and the name and the connection of the last user name. */
  lemma ReportedIsThere(msg: seq<byte>, lookup: Lookup, sums: Sums, i: nat)
    requires Parse(msg, lookup, sums).Some?
    ensures var p := Parse(msg, lookup, sums).value.parsed;
            && (p.useCandidate <==> Visits(msg, MSG_HEADER_SIZE, USE_CANDIDATE))
            && (p.iceControlling <==> Visits(msg, MSG_HEADER_SIZE, ICE_CONTROLLING))
            && (p.knownClient <==> Visits(msg, MSG_HEADER_SIZE, USERNAME))
            && (!p.knownClient ==> p.userName == [] && p.conn == NO_CONN)
    ensures var p, attrs := Parse(msg, lookup, sums).value.parsed, Attributes(msg, MSG_HEADER_SIZE);
            LastOf(attrs, USERNAME, i) ==> p.userName == attrs[i].value && lookup(attrs[i].value) == Some(p.conn)
  {
    var attrs := Attributes(msg, MSG_HEADER_SIZE);
    Accepted(msg, lookup, sums);
    VisitsIsHas(msg, MSG_HEADER_SIZE, USE_CANDIDATE);
    VisitsIsHas(msg, MSG_HEADER_SIZE, ICE_CONTROLLING);
    VisitsIsHas(msg, MSG_HEADER_SIZE, USERNAME);
    if !Has(attrs, USERNAME) {
      NoneLast(attrs, USERNAME);
    }
    if LastOf(attrs, USERNAME, i) {
      LastValueIsLast(attrs, USERNAME, i);
      assert Right(msg, Places(msg, MSG_HEADER_SIZE)[i], [] + attrs[..i], attrs[i], lookup, sums);
    }
  }

  // --- what is answered ---

  lemma {:induction false} TiledHas(m: seq<byte>, from: nat, attrs: seq<Attribute>, kind: uint16)
    requires Tiled(m, from, |m|, attrs)
    ensures Visits(m, from, kind) <==> Has(attrs, kind)
    decreases |attrs|
  {
    if attrs != [] {
      TiledHas(m, After(m, from), attrs[1..], kind);
      HasFirst(attrs[0], attrs[1..], kind);
      assert attrs == [attrs[0]] + attrs[1..];
    }
  }

  /** Nothing but a BINDING request is answered, and the answer to one is ICE-CONTROLLED if and only if
      the request was ICE-CONTROLLING; it has integrity if and only if the user name led to a password. */
  lemma AnswerTo(msg: seq<byte>, transId: seq<byte>, port: seq<byte>, addr: seq<byte>, lookup: Lookup, sums: Sums)
    requires |transId| >= 12 && |port| == 2 && (|addr| == 4 || |addr| == 16)
    requires Parse(msg, lookup, sums).Some?
    ensures var reply := Reply(Parse(msg, lookup, sums).value, transId, port, addr, sums);
            && (reply == [] <==> FromBe16(msg) != 0x001)
            && (reply != [] ==>
                && (Visits(reply, MSG_HEADER_SIZE, ICE_CONTROLLED) <==> Visits(msg, MSG_HEADER_SIZE, ICE_CONTROLLING))
                && (Visits(reply, MSG_HEADER_SIZE, MESSAGE_INTEGRITY) <==>
                    Meaning(Attributes(msg, MSG_HEADER_SIZE), lookup).conn.localPwd != []))
  {
    var stun := Parse(msg, lookup, sums).value;
    Accepted(msg, lookup, sums);
    if FromBe16(msg) == 0x001 {
      var ice, pwd := stun.parsed.iceControlling, stun.parsed.conn.localPwd;
      var start := ReplyStart(transId, port, addr, ice);
      var reply := Reply(stun, transId, port, addr, sums);
      ReplyTiles(stun, transId, port, addr, sums, start, reply);
      ReportedIsThere(msg, lookup, sums, 0);
      var attrs := StartAttributes(transId, port, addr, ice) + FinishingAttributes(start, pwd, sums, reply);
      TiledHas(reply, MSG_HEADER_SIZE, attrs, ICE_CONTROLLED);
      TiledHas(reply, MSG_HEADER_SIZE, attrs, MESSAGE_INTEGRITY);
      AnswerHas(transId, port, addr, ice, start, pwd, sums, reply);
    }
  }

  lemma AnswerHas(transId: seq<byte>, port: seq<byte>, addr: seq<byte>, ice: bool, start: seq<byte>, pwd: seq<byte>, sums: Sums,
                  reply: seq<byte>)
    requires |transId| >= 12 && |port| == 2 && (|addr| == 4 || |addr| == 16) && |start| >= 4 && |reply| >= 8
    ensures var attrs := StartAttributes(transId, port, addr, ice) + FinishingAttributes(start, pwd, sums, reply);
            (Has(attrs, ICE_CONTROLLED) <==> ice) && (Has(attrs, MESSAGE_INTEGRITY) <==> pwd != [])
  {
    var first, last := StartAttributes(transId, port, addr, ice), FinishingAttributes(start, pwd, sums, reply);
    var attrs := first + last;
    if ice {
      assert attrs[1].kind == ICE_CONTROLLED;
    }
    if pwd != [] {
      assert attrs[|first|] == last[0];
    }
  }
}
