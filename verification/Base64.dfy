/** The base64 codec, with either alphabet, padded or not, on bytes of eight bits. */
module Base64 {
  import opened Wrappers

  type byte = bv8
  type sextet = v: bv8 | v < 64

  // A table of sixty-four characters, and the function that looks a character up, where None is a throw.
  type Table = sextet -> byte
  type Lookup = byte -> Option<sextet>

  datatype Alphabet = Raw | Url

  // The alphabet tables: A-Z, a-z, 0-9 and two more.
  function Code(alphabet: Alphabet, v: sextet): byte {
    if v < 26 then v + 65
    else if v < 52 then v - 26 + 97
    else if v < 62 then v - 52 + 48
    else match alphabet
      case Raw => if v == 62 then 43 else 47
      case Url => if v == 62 then 45 else 95
  }

  const UPPER_CASE := "ABCDEFGHIJKLMNOPQRSTUVWXYZ"
  const LOWER_CASE := "abcdefghijklmnopqrstuvwxyz"
  const DIGITS := "0123456789"

  // Tables 1 and 2 of RFC 4648.
  function Rfc4648(alphabet: Alphabet): string {
    UPPER_CASE + LOWER_CASE + DIGITS + if alphabet == Raw then "+/" else "-_"
  }

  lemma InUpperCase(v: nat)
    requires v < 26
    ensures UPPER_CASE[v] as int == v + 65
  {
  }

  lemma InLowerCase(v: nat)
    requires v < 26
    ensures LOWER_CASE[v] as int == v + 97
  {
  }

  lemma InDigits(v: nat)
    requires v < 10
    ensures DIGITS[v] as int == v + 48
  {
  }

  lemma Ranges(v: sextet)
    ensures v as int < 64 && (v < 26 <==> v as int < 26) && (v < 52 <==> v as int < 52) && (v < 62 <==> v as int < 62)
    ensures v == 62 <==> v as int == 62
  {
  }

  lemma UpperCode(v: sextet)
    requires v < 26
    ensures (v + 65) as int == v as int + 65
  {
  }

  lemma LowerCode(v: sextet)
    requires 26 <= v && v < 52
    ensures (v - 26 + 97) as int == v as int - 26 + 97
  {
    assert (v - 26) as int == v as int - 26;
  }

  lemma DigitCode(v: sextet)
    requires 52 <= v && v < 62
    ensures (v - 52 + 48) as int == v as int - 52 + 48
  {
    assert (v - 52) as int == v as int - 52;
  }

  lemma CodeAsInt(alphabet: Alphabet, v: sextet)
    ensures Code(alphabet, v) as int ==
            if v < 26 then v as int + 65 else if v < 52 then v as int - 26 + 97 else if v < 62 then v as int - 52 + 48
            else if v == 62 then (if alphabet == Raw then 43 else 45) else if alphabet == Raw then 47 else 95
  {
    if v < 26 {
      UpperCode(v);
    } else if v < 52 {
      LowerCode(v);
    } else if v < 62 {
      DigitCode(v);
    }
  }

  /** The tables are those of RFC 4648. */
  lemma CodeIsInRfc4648(alphabet: Alphabet, v: sextet)
    ensures v as int < |Rfc4648(alphabet)| == 64 && Code(alphabet, v) as int == Rfc4648(alphabet)[v as int] as int
  {
    Ranges(v);
    CodeAsInt(alphabet, v);
    InRfc4648(alphabet, v as int);
  }

  lemma InRfc4648(alphabet: Alphabet, v: nat)
    requires v < 64
    ensures Rfc4648(alphabet)[v] as int ==
            if v < 26 then v + 65 else if v < 52 then v - 26 + 97 else if v < 62 then v - 52 + 48
            else if v == 62 then (if alphabet == Raw then 43 else 45) else if alphabet == Raw then 47 else 95
  {
    if v < 26 {
      InUpperCase(v);
    } else if v < 52 {
      InLowerCase(v - 26);
    } else if v < 62 {
      InDigits(v - 52);
    }
  }

  // b64_index and b64url_index, where None is a throw.
  function Index(alphabet: Alphabet, code: byte): Option<sextet> {
    if 65 <= code && code <= 90 then Some(code - 65)
    else if 97 <= code && code <= 122 then Some(code - 97 + 26)
    else if 48 <= code && code <= 57 then Some(code - 48 + 52)
    else match alphabet
      case Raw => if code == 43 then Some(62) else if code == 47 then Some(63) else None
      case Url => if code == 45 then Some(62) else if code == 95 then Some(63) else None
  }

  /** The index functions undo the tables, and know no other characters. */
  lemma IndexUndoesCode(alphabet: Alphabet, v: sextet, code: byte)
    ensures Index(alphabet, Code(alphabet, v)) == Some(v)
    ensures Index(alphabet, code) == Some(v) ==> Code(alphabet, v) == code
  {
  }

  // --- one block ---

  function First(b0: byte): sextet {
    b0 >> 2
  }

  function Second(b0: byte, b1: byte): sextet {
    ((b0 << 4) + (b1 >> 4)) & 0x3f
  }

  function Third(b1: byte, b2: byte): sextet {
    ((b1 << 2) + (b2 >> 6)) & 0x3f
  }

  function Fourth(b2: byte): sextet {
    b2 & 0x3f
  }

  function Byte0(a: sextet, b: sextet): byte {
    (a << 2) + (b >> 4)
  }

  function Byte1(b: sextet, c: sextet): byte {
    (b << 4) + (c >> 2)
  }

  function Byte2(c: sextet, d: sextet): byte {
    (c << 6) + d
  }

  lemma BlockBack(b0: byte, b1: byte, b2: byte)
    ensures Byte0(First(b0), Second(b0, b1)) == b0
    ensures Byte1(Second(b0, b1), Third(b1, b2)) == b1
    ensures Byte2(Third(b1, b2), Fourth(b2)) == b2
  {
  }

  // --- what encode computes ---

  function Block(code: Table, b0: byte, b1: byte, b2: byte): (r: seq<byte>)
    ensures |r| == 4
  {
    [code(First(b0)), code(Second(b0, b1)), code(Third(b1, b2)), code(Fourth(b2))]
  }

  // The first n blocks of three bytes.
  function EncodedBlocks(x: seq<byte>, n: nat, code: Table): (r: seq<byte>)
    requires 3 * n <= |x|
    ensures |r| == 4 * n
  {
    if n == 0 then []
    else EncodedBlocks(x, n - 1, code) + Block(code, x[3 * n - 3], x[3 * n - 2], x[3 * n - 1])
  }

  function Pads(pad: byte, n: nat): (r: seq<byte>)
    ensures |r| == if pad == 0 then 0 else n
  {
    if pad == 0 then [] else seq(n, _ => pad)
  }

  // The digits of an incomplete block.
  function EncodedRest(rest: seq<byte>, code: Table): (r: seq<byte>)
    requires |rest| <= 2
    ensures |r| == if rest == [] then 0 else |rest| + 1
  {
    if |rest| == 0 then []
    else if |rest| == 1 then Block(code, rest[0], 0, 0)[..2]
    else Block(code, rest[0], rest[1], 0)[..3]
  }

  function Whole(x: seq<byte>): (n: nat)
    ensures 3 * n <= |x| <= 3 * n + 2
  {
    |x| / 3
  }

  function Rest(x: seq<byte>): (r: seq<byte>)
    ensures |r| <= 2
  {
    x[3 * Whole(x)..]
  }

  function Encode(x: seq<byte>, pad: byte, code: Table): seq<byte> {
    EncodedBlocks(x, Whole(x), code) + EncodedRest(Rest(x), code)
    + if Rest(x) == [] then [] else Pads(pad, 3 - |Rest(x)|)
  }

  function SizeFor(len: nat, pad: byte): nat {
    if pad != 0 then (len + 2) / 3 * 4 else len / 3 * 4 + if len % 3 != 0 then len % 3 + 1 else 0
  }

  /** The size that encode computes beforehand is that of what it writes. */
  lemma EncodedSize(x: seq<byte>, pad: byte, code: Table)
    ensures |Encode(x, pad, code)| == SizeFor(|x|, pad)
  {
    assert |x| == 3 * Whole(x) + |Rest(x)|;
  }

  // --- what decode computes ---

  predicate AllDigits(index: Lookup, t: seq<byte>) {
    forall i | 0 <= i < |t| :: index(t[i]).Some?
  }

  // The value of a digit; what is no digit is never decoded.
  function Digit(index: Lookup, code: byte): sextet {
    match index(code)
    case Some(v) => v
    case None => 0
  }

  function Unblock(index: Lookup, c0: byte, c1: byte, c2: byte, c3: byte): (r: seq<byte>)
    ensures |r| == 3
  {
    var a, b, c, d := Digit(index, c0), Digit(index, c1), Digit(index, c2), Digit(index, c3);
    [Byte0(a, b), Byte1(b, c), Byte2(c, d)]
  }

  function DecodedBlocks(t: seq<byte>, n: nat, index: Lookup): (r: seq<byte>)
    requires 4 * n <= |t|
    ensures |r| == 3 * n
  {
    if n == 0 then []
    else DecodedBlocks(t, n - 1, index) + Unblock(index, t[4 * n - 4], t[4 * n - 3], t[4 * n - 2], t[4 * n - 1])
  }

  // An incomplete block gives one byte too many.
  function DecodedRest(t: seq<byte>, index: Lookup): (r: seq<byte>)
    requires 2 <= |t| <= 3
    ensures |r| == |t|
  {
    var a, b := Digit(index, t[0]), Digit(index, t[1]);
    if |t| == 2 then [Byte0(a, b), 0]
    else [Byte0(a, b), Byte1(b, Digit(index, t[2])), 0]
  }

  function WholeDigits(t: seq<byte>): (n: nat)
    ensures 4 * n <= |t| <= 4 * n + 3
  {
    |t| / 4
  }

  function Decoded(t: seq<byte>, index: Lookup): seq<byte>
    requires |t| % 4 != 1
  {
    var n := WholeDigits(t);
    DecodedBlocks(t, n, index) + if 4 * n == |t| then [] else DecodedRest(t[4 * n..], index)
  }

  predicate LegalLength(n: nat, pad: byte) {
    if pad != 0 then n % 4 == 0 else n % 4 != 1
  }

  function NumPads(t: seq<byte>, pad: byte): (n: nat)
    requires LegalLength(|t|, pad)
    ensures n <= |t| && n <= 2 && (|t| - n) % 4 != 1
  {
    if pad == 0 || |t| == 0 then 0
    else if t[|t| - 2] == pad then 2
    else if t[|t| - 1] == pad then 1
    else 0
  }

  function Decode(t: seq<byte>, pad: byte, index: Lookup): Option<seq<byte>> {
    if !LegalLength(|t|, pad) then None
    else
      var digits := t[..|t| - NumPads(t, pad)];
      if AllDigits(index, digits) then Some(Decoded(digits, index)) else None
  }

  // --- the loops ---

  method EncodeBlock(result: array<byte>, at: nat, b0: byte, b1: byte, b2: byte, code: Table)
    requires at + 4 <= result.Length
    modifies result
    ensures result[at..at + 4] == Block(code, b0, b1, b2)
    ensures forall k | 0 <= k < result.Length && !(at <= k < at + 4) :: result[k] == old(result[k])
  {
    result[at] := code(b0 >> 2);
    result[at + 1] := code(((b0 << 4) + (b1 >> 4)) & 0x3f);
    result[at + 2] := code(((b1 << 2) + (b2 >> 6)) & 0x3f);
    result[at + 3] := code(b2 & 0x3f);
  }

  lemma LastSextets(b: byte)
    ensures Second(b, 0) == (b << 4) & 0x3f && Third(b, 0) == (b << 2) & 0x3f
  {
  }

  method EncodeTwo(result: array<byte>, at: nat, b0: byte, b1: byte, pad: byte, code: Table)
    requires result.Length == at + 3 + |Pads(pad, 1)|
    modifies result
    ensures result[at..at + 3] == Block(code, b0, b1, 0)[..3] && result[at + 3..] == Pads(pad, 1)
    ensures forall k | 0 <= k < at :: result[k] == old(result[k])
  {
    LastSextets(b1);
    result[at] := code(b0 >> 2);
    result[at + 1] := code(((b0 << 4) + (b1 >> 4)) & 0x3f);
    result[at + 2] := code((b1 << 2) & 0x3f);
    if pad != 0 {
      result[at + 3] := pad;
    }
  }

  method EncodeOne(result: array<byte>, at: nat, b0: byte, pad: byte, code: Table)
    requires result.Length == at + 2 + |Pads(pad, 2)|
    modifies result
    ensures result[at..at + 2] == Block(code, b0, 0, 0)[..2] && result[at + 2..] == Pads(pad, 2)
    ensures forall k | 0 <= k < at :: result[k] == old(result[k])
  {
    LastSextets(b0);
    result[at] := code(b0 >> 2);
    result[at + 1] := code((b0 << 4) & 0x3f);
    if pad != 0 {
      result[at + 2] := pad;
      result[at + 3] := pad;
    }
  }

  method EncodeRest(result: array<byte>, at: nat, rest: seq<byte>, pad: byte, code: Table)
    requires 1 <= |rest| <= 2 && result.Length == at + |rest| + 1 + |Pads(pad, 3 - |rest|)|
    modifies result
    ensures result[at..] == EncodedRest(rest, code) + Pads(pad, 3 - |rest|)
    ensures forall k | 0 <= k < at :: result[k] == old(result[k])
  {
    if |rest| > 1 {
      EncodeTwo(result, at, rest[0], rest[1], pad, code);
      assert result[at..] == result[at..at + 3] + result[at + 3..];
    } else {
      EncodeOne(result, at, rest[0], pad, code);
      assert result[at..] == result[at..at + 2] + result[at + 2..];
    }
  }

  method EncodeBlocks(result: array<byte>, data: seq<byte>, blocks: nat, code: Table)
    requires 3 * blocks <= |data| && 4 * blocks <= result.Length
    modifies result
    ensures result[..4 * blocks] == EncodedBlocks(data, blocks, code)
  {
    var p, q := 0, 0;
    for i := 0 to blocks
      invariant p == 3 * i && q == 4 * i
      invariant result[..q] == EncodedBlocks(data, i, code)
    {
      ghost var before := result[..q];
      EncodeBlock(result, q, data[p], data[p + 1], data[p + 2], code);
      assert result[..q + 4] == before + result[q..q + 4];
      p, q := p + 3, q + 4;
    }
  }

  method EncodeTo(data: seq<byte>, pad: byte, code: Table) returns (result: array<byte>)
    ensures result[..] == Encode(data, pad, code)
  {
    EncodedSize(data, pad, code);
    result := new byte[SizeFor(|data|, pad)](_ => 0);
    var n := Whole(data);
    var rest := Rest(data);
    EncodeBlocks(result, data, n, code);
    ghost var before := result[..4 * n];
    if rest != [] {
      EncodeRest(result, 4 * n, rest, pad, code);
    }
    assert result[..] == before + result[4 * n..];
  }

  // Looks up characters, up to the first that is not a digit.
  method LookUp(t: seq<byte>, index: Lookup) returns (ok: bool, vs: seq<sextet>)
    ensures ok <==> AllDigits(index, t)
    ensures ok ==> |vs| == |t| && forall i | 0 <= i < |t| :: vs[i] == Digit(index, t[i])
  {
    vs := [];
    for i := 0 to |t|
      invariant |vs| == i && forall k | 0 <= k < i :: index(t[k]) == Some(vs[k])
    {
      var v := index(t[i]);
      if v.None? {
        return false, vs;
      }
      vs := vs + [v.value];
    }
    ok := true;
  }

  method DecodeBlock(result: array<byte>, at: nat, t: seq<byte>, p: nat, index: Lookup) returns (ok: bool)
    requires at + 3 <= result.Length && p + 4 <= |t|
    modifies result
    ensures ok <==> AllDigits(index, t[p..p + 4])
    ensures ok ==> result[at..at + 3] == Unblock(index, t[p], t[p + 1], t[p + 2], t[p + 3])
    ensures forall k | 0 <= k < result.Length && !(at <= k < at + 3) :: result[k] == old(result[k])
  {
    var vs;
    ok, vs := LookUp(t[p..p + 4], index);
    if ok {
      var a: byte, b: byte, c: byte, d: byte := vs[0], vs[1], vs[2], vs[3];
      result[at] := (a << 2) + (b >> 4);
      result[at + 1] := (b << 4) + (c >> 2);
      result[at + 2] := (c << 6) + d;
    }
  }

  method DecodeRest(result: array<byte>, at: nat, t: seq<byte>, index: Lookup) returns (ok: bool)
    requires 2 <= |t| <= 3 && result.Length == at + |t|
    requires forall k | at <= k < result.Length :: result[k] == 0
    modifies result
    ensures ok <==> AllDigits(index, t)
    ensures ok ==> result[at..] == DecodedRest(t, index)
    ensures forall k | 0 <= k < at :: result[k] == old(result[k])
  {
    var vs;
    ok, vs := LookUp(t, index);
    if ok {
      var a: byte, b: byte := vs[0], vs[1];
      result[at] := (a << 2) + (b >> 4);
      if |t| > 2 {
        var c: byte := vs[2];
        result[at + 1] := (b << 4) + (c >> 2);
      }
    }
  }

  lemma DigitsSplit(t: seq<byte>, n: nat, index: Lookup)
    requires n <= |t|
    ensures AllDigits(index, t) <==> AllDigits(index, t[..n]) && AllDigits(index, t[n..])
  {
    assert forall i | 0 <= i < n :: t[..n][i] == t[i];
    assert forall i | n <= i < |t| :: t[i] == t[n..][i - n];
  }

  lemma DecodedNext(t: seq<byte>, n: nat, p: nat, index: Lookup, done: seq<byte>, block: seq<byte>)
    requires p == 4 * n && p + 4 <= |t| && done == DecodedBlocks(t, n, index)
    requires block == Unblock(index, t[p], t[p + 1], t[p + 2], t[p + 3])
    ensures DecodedBlocks(t, n + 1, index) == done + block
  {
  }

  method DecodeBlocks(result: array<byte>, t: seq<byte>, blocks: nat, index: Lookup) returns (ok: bool)
    requires 4 * blocks <= |t| && 3 * blocks <= result.Length && forall k | 0 <= k < result.Length :: result[k] == 0
    modifies result
    ensures !ok ==> !AllDigits(index, t)
    ensures ok ==> AllDigits(index, t[..4 * blocks]) && result[..3 * blocks] == DecodedBlocks(t, blocks, index)
    ensures ok ==> forall k | 3 * blocks <= k < result.Length :: result[k] == 0
  {
    var p, q := 0, 0;
    for i := 0 to blocks
      invariant p == 4 * i && q == 3 * i
      invariant AllDigits(index, t[..p]) && result[..q] == DecodedBlocks(t, i, index)
      invariant forall k | q <= k < result.Length :: result[k] == 0
    {
      ghost var before := result[..q];
      BlockSplits(t, p, index);
      ok := DecodeBlock(result, q, t, p, index);
      if !ok {
        return;
      }
      DecodedNext(t, i, p, index, before, result[q..q + 3]);
      assert result[..q + 3] == before + result[q..q + 3];
      p, q := p + 4, q + 3;
    }
    ok := true;
  }

  lemma BlockSplits(t: seq<byte>, p: nat, index: Lookup)
    requires p + 4 <= |t|
    ensures AllDigits(index, t[..p]) && AllDigits(index, t[p..p + 4]) ==> AllDigits(index, t[..p + 4])
    ensures AllDigits(index, t) ==> AllDigits(index, t[p..p + 4])
  {
    DigitsSplit(t[..p + 4], p, index);
    assert t[..p + 4][..p] == t[..p] && t[..p + 4][p..] == t[p..p + 4];
    DigitsSplit(t, p + 4, index);
  }

  method DecodeDigits(t: seq<byte>, index: Lookup) returns (r: Option<seq<byte>>)
    requires |t| % 4 != 1
    ensures r == if AllDigits(index, t) then Some(Decoded(t, index)) else None
  {
    var n := WholeDigits(t);
    var rest := t[4 * n..];
    var result := new byte[3 * n + |rest|](_ => 0);
    var ok := DecodeBlocks(result, t, n, index);
    if !ok {
      return None;
    }
    DigitsSplit(t, 4 * n, index);
    ghost var before := result[..3 * n];
    if rest != [] {
      ok := DecodeRest(result, 3 * n, rest, index);
      if !ok {
        return None;
      }
    }
    assert result[..] == before + result[3 * n..];
    r := Some(result[..]);
  }

  method CountPads(data: seq<byte>, pad: byte) returns (n: nat)
    requires LegalLength(|data|, pad)
    ensures n == NumPads(data, pad)
  {
    var len := |data|;
    n := 0;
    if pad != 0 {
      if len > 0 {
        if data[len - 2] == pad {
          n := 2;
        } else if data[len - 1] == pad {
          n := 1;
        }
      }
    }
  }

  method DecodeFrom(data: seq<byte>, pad: byte, index: Lookup) returns (r: Option<seq<byte>>)
    ensures r == Decode(data, pad, index)
  {
    if pad != 0 {
      if |data| % 4 != 0 {
        return None;
      }
    } else {
      if |data| % 4 == 1 {
        return None;
      }
    }
    var numPads := CountPads(data, pad);
    r := DecodeDigits(data[..|data| - numPads], index);
  }

  // --- decode after encode ---

  predicate InAlphabet(index: Lookup, code: byte) {
    index(code).Some?
  }

  // The index function undoes the table.
  ghost predicate Inverse(code: Table, index: Lookup) {
    forall v: sextet :: index(code(v)) == Some(v)
  }

  // And it knows no other characters.
  ghost predicate NoOthers(code: Table, index: Lookup) {
    forall c: byte :: index(c).Some? ==> code(index(c).value) == c
  }

  lemma BlockRoundTrip(b0: byte, b1: byte, b2: byte, code: Table, index: Lookup)
    requires Inverse(code, index)
    ensures var q := Block(code, b0, b1, b2);
            AllDigits(index, q) && Unblock(index, q[0], q[1], q[2], q[3]) == [b0, b1, b2]
  {
    BlockBack(b0, b1, b2);
  }

  lemma LastBlock(x: seq<byte>, n: nat, t: seq<byte>, code: Table)
    requires 3 * n + 3 <= |x| && 4 * n + 4 <= |t| && t[..4 * n + 4] == EncodedBlocks(x, n + 1, code)
    ensures t[..4 * n] == EncodedBlocks(x, n, code)
    ensures t[4 * n..4 * n + 4] == Block(code, x[3 * n], x[3 * n + 1], x[3 * n + 2])
  {
    SplitLast(EncodedBlocks(x, n, code), Block(code, x[3 * n], x[3 * n + 1], x[3 * n + 2]), t);
  }

  lemma SplitLast(a: seq<byte>, b: seq<byte>, t: seq<byte>)
    requires |a| + |b| <= |t| && t[..|a| + |b|] == a + b
    ensures t[..|a|] == a && t[|a|..|a| + |b|] == b
  {
    assert t[..|a|] == t[..|a| + |b|][..|a|];
    assert t[|a|..|a| + |b|] == t[..|a| + |b|][|a|..];
  }

  lemma AddBlock(t: seq<byte>, p: nat, q: seq<byte>, index: Lookup)
    requires p + 4 <= |t| && t[p..p + 4] == q && AllDigits(index, t[..p]) && AllDigits(index, q)
    ensures AllDigits(index, t[..p + 4])
    ensures t[p] == q[0] && t[p + 1] == q[1] && t[p + 2] == q[2] && t[p + 3] == q[3]
  {
    BlockSplits(t, p, index);
    assert t[p] == t[p..p + 4][0] && t[p + 1] == t[p..p + 4][1] && t[p + 2] == t[p..p + 4][2] && t[p + 3] == t[p..p + 4][3];
  }

  lemma {:induction false} BlocksRoundTrip(x: seq<byte>, n: nat, t: seq<byte>, code: Table, index: Lookup)
    requires Inverse(code, index)
    requires 3 * n <= |x| && 4 * n <= |t| && t[..4 * n] == EncodedBlocks(x, n, code)
    ensures AllDigits(index, t[..4 * n]) && DecodedBlocks(t, n, index) == x[..3 * n]
  {
    if n > 0 {
      var m := n - 1;
      assert 4 * n == 4 * m + 4 && 3 * n == 3 * m + 3 && n == m + 1;
      LastBlock(x, m, t, code);
      BlocksRoundTrip(x, m, t, code, index);
      NextRoundTrip(x, m, 3 * m, 4 * m, t, code, index);
    }
  }

  lemma NextRoundTrip(x: seq<byte>, n: nat, p: nat, at: nat, t: seq<byte>, code: Table, index: Lookup)
    requires Inverse(code, index) && p == 3 * n && at == 4 * n && p + 3 <= |x| && at + 4 <= |t|
    requires t[at..at + 4] == Block(code, x[p], x[p + 1], x[p + 2])
    requires AllDigits(index, t[..at]) && DecodedBlocks(t, n, index) == x[..p]
    ensures AllDigits(index, t[..at + 4]) && DecodedBlocks(t, n + 1, index) == x[..p + 3]
  {
    BlockBackAt(t, at, x[p], x[p + 1], x[p + 2], code, index);
    DecodedNext(t, n, at, index, x[..p], [x[p], x[p + 1], x[p + 2]]);
  }

  lemma BlockBackAt(t: seq<byte>, at: nat, b0: byte, b1: byte, b2: byte, code: Table, index: Lookup)
    requires Inverse(code, index) && at + 4 <= |t| && t[at..at + 4] == Block(code, b0, b1, b2)
    requires AllDigits(index, t[..at])
    ensures AllDigits(index, t[..at + 4]) && Unblock(index, t[at], t[at + 1], t[at + 2], t[at + 3]) == [b0, b1, b2]
  {
    BlockRoundTrip(b0, b1, b2, code, index);
    AddBlock(t, at, Block(code, b0, b1, b2), index);
  }

  lemma RestRoundTrip(rest: seq<byte>, code: Table, index: Lookup)
    requires Inverse(code, index) && 1 <= |rest| <= 2
    ensures AllDigits(index, EncodedRest(rest, code))
    ensures DecodedRest(EncodedRest(rest, code), index) == rest + [0]
  {
    BlockRoundTrip(rest[0], if |rest| > 1 then rest[1] else 0, 0, code, index);
  }

  // What is left of an encoding without its padding.
  function Unpadded(x: seq<byte>, code: Table): seq<byte> {
    EncodedBlocks(x, Whole(x), code) + EncodedRest(Rest(x), code)
  }

  lemma UnpaddedParts(x: seq<byte>, t: seq<byte>, n: nat, code: Table)
    requires n == Whole(x) && t == Unpadded(x, code)
    ensures t[..4 * n] == EncodedBlocks(x, n, code) && t[4 * n..] == EncodedRest(Rest(x), code)
    ensures |t| % 4 != 1 && WholeDigits(t) == n && |x| % 3 == |Rest(x)| && x == x[..3 * n] + Rest(x)
  {
  }

  lemma UnpaddedRoundTrip(x: seq<byte>, t: seq<byte>, code: Table, index: Lookup)
    requires Inverse(code, index) && t == Unpadded(x, code)
    ensures |t| % 4 != 1 && AllDigits(index, t)
    ensures Decoded(t, index) == if |x| % 3 == 0 then x else x + [0]
  {
    var n, rest := Whole(x), Rest(x);
    UnpaddedParts(x, t, n, code);
    BlocksRoundTrip(x, n, t, code, index);
    DigitsSplit(t, 4 * n, index);
    if rest != [] {
      RestRoundTrip(rest, code, index);
      assert x[..3 * n] + (rest + [0]) == x + [0];
    }
  }

  // How much padding there is behind the digits.
  function PadsFor(x: seq<byte>, pad: byte): nat {
    if pad == 0 || Rest(x) == [] then 0 else 3 - |Rest(x)|
  }

  lemma PaddedParts(x: seq<byte>, pad: byte, code: Table)
    ensures var t, u := Encode(x, pad, code), Unpadded(x, code);
            && |t| == |u| + PadsFor(x, pad) && t[..|u|] == u && LegalLength(|t|, pad)
            && forall i | |u| <= i < |t| :: t[i] == pad
  {
    EncodedSize(x, pad, code);
    LegalSize(|x|, pad);
  }

  lemma LegalSize(len: nat, pad: byte)
    ensures LegalLength(SizeFor(len, pad), pad)
  {
    Fours((len + 2) / 3, 0);
    Fours(len / 3, if len % 3 != 0 then len % 3 + 1 else 0);
  }

  lemma Fours(k: nat, r: nat)
    requires r < 4
    ensures (k * 4 + r) % 4 == r
  {
  }

  // decode takes off exactly the padding.
  lemma PaddingComesOff(t: seq<byte>, n: nat, pad: byte, index: Lookup)
    requires n <= 2 && n <= |t| && LegalLength(|t|, pad) && (pad == 0 ==> n == 0)
    requires AllDigits(index, t[..|t| - n]) && (pad == 0 || !InAlphabet(index, pad))
    requires forall i | |t| - n <= i < |t| :: t[i] == pad
    ensures NumPads(t, pad) == n
  {
    assert forall i | 0 <= i < |t| - n :: t[i] == t[..|t| - n][i];
  }

  /** Decoding what was encoded never fails, whatever the padding as long as it is no character of the
      alphabet; it gives the data back, but with one more byte, zero, unless their length is a
      multiple of three. */
  lemma DecodeEncode(x: seq<byte>, pad: byte, code: Table, index: Lookup)
    requires Inverse(code, index) && (pad == 0 || !InAlphabet(index, pad))
    ensures Decode(Encode(x, pad, code), pad, index) == Some(if |x| % 3 == 0 then x else x + [0])
  {
    PaddedParts(x, pad, code);
    UnpaddedRoundTrip(x, Unpadded(x, code), code, index);
    PaddingComesOff(Encode(x, pad, code), PadsFor(x, pad), pad, index);
  }

  /** So decoding gives back what was encoded, as the standard has it, if and only if its length is a
      multiple of three. */
  lemma ExactIfWholeBlocks(x: seq<byte>, pad: byte, code: Table, index: Lookup)
    requires Inverse(code, index) && (pad == 0 || !InAlphabet(index, pad))
    ensures Decode(Encode(x, pad, code), pad, index) == Some(x) <==> |x| % 3 == 0
  {
    DecodeEncode(x, pad, code, index);
    assert |x + [0]| != |x|;
  }

  // Three bytes whose four digits are all the character pad.
  lemma PadForDigits(pad: byte, code: Table, index: Lookup) returns (x: seq<byte>)
    requires NoOthers(code, index) && pad != 0 && InAlphabet(index, pad)
    ensures |x| == 3 && Encode(x, pad, code) == [pad, pad, pad, pad]
  {
    var v := index(pad).value;
    SextetsBack(v);
    x := [Byte0(v, v), Byte1(v, v), Byte2(v, v)];
    assert Whole(x) == 1 && Rest(x) == [];
    assert EncodedBlocks(x, 0, code) == [];
    assert EncodedBlocks(x, 1, code) == Block(code, x[0], x[1], x[2]);
  }

  lemma SextetsBack(v: sextet)
    ensures First(Byte0(v, v)) == v && Second(Byte0(v, v), Byte1(v, v)) == v
    ensures Third(Byte1(v, v), Byte2(v, v)) == v && Fourth(Byte2(v, v)) == v
  {
  }

  ghost predicate RoundTrips(pad: byte, code: Table, index: Lookup) {
    forall x :: Decode(Encode(x, pad, code), pad, index) == Some(if |x| % 3 == 0 then x else x + [0])
  }

  /** That holds for all data if and only if the padding is no character of the alphabet. */
  lemma RoundTripsUnlessPadIsDigit(pad: byte, code: Table, index: Lookup)
    requires Inverse(code, index) && NoOthers(code, index)
    ensures RoundTrips(pad, code, index) <==> pad == 0 || !InAlphabet(index, pad)
  {
    if pad == 0 || !InAlphabet(index, pad) {
      forall x
        ensures Decode(Encode(x, pad, code), pad, index) == Some(if |x| % 3 == 0 then x else x + [0])
      {
        DecodeEncode(x, pad, code, index);
      }
    } else {
      var x := PadForDigits(pad, code, index);
      var t := [pad, pad, pad, pad];
      assert NumPads(t, pad) == 2;
      assert |Decoded(t[..2], index)| == 2;
      assert Decode(Encode(x, pad, code), pad, index) != Some(x);
    }
  }

  /** Decoding fails exactly if the length is illegal, or a character that is not taken for padding is
      not in the alphabet. */
  lemma DecodeFails(t: seq<byte>, pad: byte, index: Lookup)
    ensures Decode(t, pad, index) == None <==>
            !LegalLength(|t|, pad) || exists i :: 0 <= i < |t| - NumPads(t, pad) && !InAlphabet(index, t[i])
  {
    if LegalLength(|t|, pad) {
      var digits := t[..|t| - NumPads(t, pad)];
      assert forall i | 0 <= i < |digits| :: digits[i] == t[i];
    }
  }

  // --- the two alphabets ---

  function TableOf(alphabet: Alphabet): Table {
    (v: sextet) => Code(alphabet, v)
  }

  function LookupOf(alphabet: Alphabet): Lookup {
    (c: byte) => Index(alphabet, c)
  }

  lemma TablesInverse(alphabet: Alphabet)
    ensures Inverse(TableOf(alphabet), LookupOf(alphabet)) && NoOthers(TableOf(alphabet), LookupOf(alphabet))
  {
    forall v: sextet
      ensures LookupOf(alphabet)(TableOf(alphabet)(v)) == Some(v)
    {
      IndexUndoesCode(alphabet, v, 0);
    }
    forall c: byte | LookupOf(alphabet)(c).Some?
      ensures TableOf(alphabet)(LookupOf(alphabet)(c).value) == c
    {
      IndexUndoesCode(alphabet, Index(alphabet, c).value, c);
    }
  }

  method B64Encode(data: seq<byte>, pad: byte, alphabet: Alphabet) returns (result: array<byte>)
    ensures result[..] == Encode(data, pad, TableOf(alphabet))
  {
    result := EncodeTo(data, pad, TableOf(alphabet));
  }

  method B64Decode(data: seq<byte>, pad: byte, alphabet: Alphabet) returns (r: Option<seq<byte>>)
    ensures r == Decode(data, pad, LookupOf(alphabet))
  {
    r := DecodeFrom(data, pad, LookupOf(alphabet));
  }

  /** b64_decode after b64_encode, and b64url_decode after b64url_encode, unpadded or padded with '='. */
  lemma BothAlphabetsRoundTrip(x: seq<byte>, pad: byte, alphabet: Alphabet)
    requires pad == 0 || pad == 61
    ensures Decode(Encode(x, pad, TableOf(alphabet)), pad, LookupOf(alphabet)) == Some(if |x| % 3 == 0 then x else x + [0])
  {
    TablesInverse(alphabet);
    DecodeEncode(x, pad, TableOf(alphabet), LookupOf(alphabet));
  }
}
