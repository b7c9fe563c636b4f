/** Big-endian integers in byte buffers.  A shift of an unsigned integer is a division or a
    multiplication by a power of two, its width is written out. */
module Bytes {

  type byte = n: nat | n < 0x100
  type uint16 = n: nat | n < 0x1_0000
  type uint32 = n: nat | n < 0x1_0000_0000
  type uint64 = n: nat | n < 0x1_0000_0000_0000_0000

  function Byte(n: nat): byte
  {
    n % 0x100
  }

  // v shifted right by n bytes
  function Shr(v: nat, n: nat): nat {
    if n == 0 then v else Shr(v, n - 1) / 0x100
  }

  lemma Shifts(v: nat)
    ensures Shr(v, 1) == v / 0x100 && Shr(v, 2) == v / 0x100 / 0x100 && Shr(v, 3) == v / 0x100 / 0x100 / 0x100
  {
    assert Shr(v, 0) == v;
    assert Shr(v, 1) == v / 0x100;
    assert Shr(v, 2) == v / 0x100 / 0x100;
  }

  function Be16(v: uint16): (b: seq<byte>)
    ensures |b| == 2
  {
    [Byte(Shr(v, 1)), Byte(v)]
  }

  function Be32(v: uint32): (b: seq<byte>)
    ensures |b| == 4
  {
    [Byte(Shr(v, 3)), Byte(Shr(v, 2)), Byte(Shr(v, 1)), Byte(v)]
  }

  function Zeros(n: nat): (z: seq<byte>)
    ensures |z| == n
  {
    seq(n, _ => 0)
  }

  // The first n bytes of b as a number.
  function Value(b: seq<byte>, n: nat): (v: nat)
    requires n <= |b|
  {
    if n == 0 then 0 else Value(b, n - 1) * 0x100 + b[n - 1]
  }

  lemma {:induction false} ValueOfPrefix(a: seq<byte>, b: seq<byte>, n: nat)
    requires n <= |a| && n <= |b| && a[..n] == b[..n]
    ensures Value(a, n) == Value(b, n)
  {
    if n > 0 {
      assert a[n - 1] == a[..n][n - 1] == b[n - 1];
      assert a[..n - 1] == a[..n][..n - 1] == b[..n - 1];
      ValueOfPrefix(a, b, n - 1);
    }
  }

  function FromBe16(b: seq<byte>): (v: uint16)
    requires |b| >= 2
  {
    b[0] as nat * 0x100 + b[1]
  }

  function FromBe32(b: seq<byte>): (v: uint32)
    requires |b| >= 4
  {
    ((b[0] as nat * 0x100 + b[1]) * 0x100 + b[2]) * 0x100 + b[3]
  }

  lemma RoundTrip16(v: uint16)
    ensures FromBe16(Be16(v)) == v
  {
    Shifts(v);
  }

  lemma RoundTrip32(v: uint32)
    ensures FromBe32(Be32(v)) == v
  {
    var v1 := v / 0x100;
    var v2 := v1 / 0x100;
    var v3 := v2 / 0x100;
    Shifts(v);
    assert v3 < 0x100;
  }

  lemma AppendByte(v: nat, b: byte)
    ensures (v * 0x100 + b) / 0x100 == v && (v * 0x100 + b) % 0x100 == b
  {
  }

  lemma Bytes16(b: seq<byte>)
    requires |b| == 2
    ensures Be16(FromBe16(b)) == b
  {
    AppendByte(b[0], b[1]);
    Shifts(FromBe16(b));
  }

  lemma Bytes32(b: seq<byte>)
    requires |b| == 4
    ensures Be32(FromBe32(b)) == b
  {
    var v1 := b[0] as nat * 0x100 + b[1];
    var v2 := v1 * 0x100 + b[2];
    AppendByte(b[0], b[1]);
    AppendByte(v1, b[2]);
    AppendByte(v2, b[3]);
    Shifts(FromBe32(b));
  }

  method SetBe16(v: uint16, a: array<byte>, at: nat)
    requires at + 2 <= a.Length
    modifies a
    ensures a[at..at + 2] == Be16(v)
    ensures forall k | 0 <= k < a.Length && !(at <= k < at + 2) :: a[k] == old(a[k])
  {
    a[at] := Byte(Shr(v, 1));
    a[at + 1] := Byte(v);
  }

  method SetBe32(v: uint32, a: array<byte>, at: nat)
    requires at + 4 <= a.Length
    modifies a
    ensures a[at..at + 4] == Be32(v)
    ensures forall k | 0 <= k < a.Length && !(at <= k < at + 4) :: a[k] == old(a[k])
  {
    a[at] := Byte(Shr(v, 3));
    a[at + 1] := Byte(Shr(v, 2));
    a[at + 2] := Byte(Shr(v, 1));
    a[at + 3] := Byte(v);
  }

  // 2 to the power of 8 * n
  function Power(n: nat): nat {
    if n == 0 then 1 else 0x100 * Power(n - 1)
  }

  lemma {:induction false} ShrBelow(v: nat, n: nat, k: nat)
    requires v < Power(n) && k <= n
    ensures Shr(v, k) < Power(n - k)
  {
    if k > 0 {
      ShrBelow(v, n, k - 1);
    }
  }

  /** Writing v leaves its digits in the buffer, most significant first. */
  method SetBe64(v: uint64, a: array<byte>, at: nat)
    requires at + 8 <= a.Length
    modifies a
    ensures a[..at] == old(a[..at]) && a[at + 8..] == old(a[at + 8..])
    ensures Value(a[at..], 8) == v
  {
    assert Power(8) == 0x1_0000_0000_0000_0000;
    ShrBelow(v, 8, 8);
    for i := 0 to 8
      invariant forall k | 0 <= k < a.Length && !(at <= k < at + i) :: a[k] == old(a[k])
      invariant Value(a[at..], i) == Shr(v, 8 - i)
    {
      ghost var before := a[at..];
      a[at + i] := Byte(Shr(v, 7 - i));
      ValueOfPrefix(before, a[at..], i);
    }
  }

  lemma {:induction false} PowerGrows(m: nat, n: nat)
    requires m <= n
    ensures 0 < Power(m) <= Power(n)
    decreases n
  {
    if m < n {
      PowerGrows(m, n - 1);
    } else if n > 0 {
      PowerGrows(n - 1, n - 1);
    }
  }

  method GetBe64(b: seq<byte>) returns (v: uint64)
    requires |b| >= 8
    ensures v == Value(b, 8)
  {
    v := 0;
    for i := 0 to 8
      invariant v == Value(b, i) && v < Power(i)
    {
      assert v < Power(i) <= Power(7) by {
        PowerGrows(i, 7);
      }
      v := v * 0x100 + b[i];
    }
  }
}
