/** The two crc32 functions: crc32_sctp, with the Castagnoli polynomial, and crc32_xor of STUN,
    with the IEEE one.  Both go through a table, a byte at a time; the reference divides by the
    polynomial a bit at a time. */
module Crc32 {
  import ByteBits
  import opened Bytes

  // --- the reference: dividing by the polynomial, one bit of the message at a time ---

  // The polynomials without their leading term, the coefficient of x^31 in the lowest bit.
  const CASTAGNOLI: bv32 := 0x82f63b78
  const IEEE: bv32 := 0xedb88320
  const ALL_ONES: bv32 := 0xffff_ffff

  function BitStep(crc: bv32, poly: bv32): bv32 {
    if crc & 1 == 1 then (crc >> 1) ^ poly else crc >> 1
  }

  function FeedBit(crc: bv32, bit: bv32, poly: bv32): bv32 {
    BitStep(crc ^ bit, poly)
  }

  // The lowest n bits of bits go in, lowest first.
  function FeedBits(crc: bv32, bits: bv32, n: nat, poly: bv32): bv32
    decreases n, crc
  {
    if n == 0 then crc else FeedBits(FeedBit(crc, bits & 1, poly), bits >> 1, n - 1, poly)
  }

  function Word(b: byte): bv32 {
    b as bv8 as bv32
  }

  function Feed(crc: bv32, msg: seq<byte>, poly: bv32): bv32 {
    if msg == [] then crc
    else FeedBits(Feed(crc, msg[..|msg| - 1], poly), Word(msg[|msg| - 1]), 8, poly)
  }

  // --- feeding bits one by one, and having them in the register from the start ---

  function Steps(x: bv32, n: nat, poly: bv32): bv32
    decreases n, x
  {
    if n == 0 then x else Steps(BitStep(x, poly), n - 1, poly)
  }

  function Shifted(x: bv32, n: nat): bv32
    decreases n
  {
    if n == 0 then x else Shifted(x >> 1, n - 1)
  }

  function Xor(a: bv32, b: bv32): bv32 {
    a ^ b
  }

  lemma FeedLater(crc: bv32, bits: bv32, poly: bv32)
    ensures BitStep(crc ^ bits, poly) == BitStep(crc ^ (bits & 1), poly) ^ (bits >> 1)
  {
  }

  lemma XorIs(a: bv32, b: bv32, x: bv32)
    requires x == a ^ b
    ensures Xor(a, b) == x
  {
  }

  lemma FeedOne(crc: bv32, bits: bv32, poly: bv32)
    ensures BitStep(Xor(crc, bits), poly) == Xor(FeedBit(crc, bits & 1, poly), bits >> 1)
  {
    FeedLater(crc, bits, poly);
    XorIs(crc, bits, crc ^ bits);
    XorIs(FeedBit(crc, bits & 1, poly), bits >> 1, BitStep(crc ^ bits, poly));
  }

  lemma {:induction false} FeedAtOnce(crc: bv32, bits: bv32, n: nat, poly: bv32)
    ensures Steps(Xor(crc, bits), n, poly) == Xor(FeedBits(crc, bits, n, poly), Shifted(bits, n))
    decreases n
  {
    if n > 0 {
      FeedOne(crc, bits, poly);
      FeedAtOnce(FeedBit(crc, bits & 1, poly), bits >> 1, n - 1, poly);
    }
  }

  // Bits that are zero change nothing but the steps.
  predicate LowZero(x: bv32, n: nat)
    decreases n
  {
    n == 0 || (x & 1 == 0 && LowZero(x >> 1, n - 1))
  }

  lemma ZeroBit(crc: bv32, bits: bv32, poly: bv32)
    requires bits & 1 == 0
    ensures FeedBit(crc, bits & 1, poly) == BitStep(crc, poly)
  {
  }

  lemma {:induction false} FeedZeros(crc: bv32, bits: bv32, n: nat, poly: bv32)
    requires LowZero(bits, n)
    ensures FeedBits(crc, bits, n, poly) == Steps(crc, n, poly)
    decreases n
  {
    if n > 0 {
      ZeroBit(crc, bits, poly);
      FeedZeros(BitStep(crc, poly), bits >> 1, n - 1, poly);
    }
  }

  lemma ShiftTwice(x: bv32)
    ensures x >> 1 >> 1 == x >> 2
    ensures x >> 2 >> 2 == x >> 4
    ensures x >> 4 >> 4 == x >> 8
  {
  }

  lemma Shifted8(x: bv32, n: nat)
    ensures Shifted(x, n + 8) == Shifted(x >> 8, n)
  {
    Shifted4(x, n + 4);
    Shifted4(x >> 4, n);
    ShiftTwice(x);
  }

  lemma Shifted4(x: bv32, n: nat)
    ensures Shifted(x, n + 4) == Shifted(x >> 4, n)
  {
    Shifted2(x, n + 2);
    Shifted2(x >> 2, n);
    ShiftTwice(x);
  }

  lemma Shifted2(x: bv32, n: nat)
    ensures Shifted(x, n + 2) == Shifted(x >> 2, n)
  {
    assert Shifted(x, n + 2) == Shifted(x >> 1, n + 1);
    assert Shifted(x >> 1, n + 1) == Shifted(x >> 1 >> 1, n);
    ShiftTwice(x);
  }

  lemma LowZero8(x: bv32)
    requires x & 0xff == 0
    ensures LowZero(x, 8)
  {
    LowZero4(x, 4);
    LowZero4(x >> 4, 0);
  }

  lemma LowZero4(x: bv32, n: nat)
    requires x & 0xf == 0 && LowZero(x >> 4, n)
    ensures LowZero(x, n + 4)
  {
    var x2 := x >> 1 >> 1;
    ShiftTwice(x);
    assert LowZero(x2 >> 1 >> 1, n);
    assert LowZero(x2 >> 1, n + 1);
    assert LowZero(x2, n + 2);
    assert LowZero(x >> 1, n + 3);
  }

  // --- a byte through the table ---

  function Eight(x: bv32, poly: bv32): bv32 {
    BitStep(BitStep(BitStep(BitStep(BitStep(BitStep(BitStep(BitStep(x, poly), poly), poly), poly), poly), poly), poly), poly)
  }

  lemma StepsIsEight(x: bv32, poly: bv32)
    ensures Steps(x, 8, poly) == Eight(x, poly)
  {
    var x1 := BitStep(x, poly);
    var x2 := BitStep(x1, poly);
    var x3 := BitStep(x2, poly);
    var x4 := BitStep(x3, poly);
    var x5 := BitStep(x4, poly);
    var x6 := BitStep(x5, poly);
    assert Steps(x, 8, poly) == Steps(x1, 7, poly) == Steps(x2, 6, poly) == Steps(x3, 5, poly) == Steps(x4, 4, poly);
    var x7 := BitStep(x6, poly);
    assert Steps(x4, 4, poly) == Steps(x5, 3, poly) == Steps(x6, 2, poly) == Steps(x7, 1, poly);
    assert Steps(x7, 1, poly) == Steps(BitStep(x7, poly), 0, poly);
  }

  lemma XorZero(a: bv32)
    ensures Xor(a, 0) == a
  {
  }

  lemma NoHighBits(x: bv32)
    requires x & 0xff == x
    ensures x >> 8 == 0
  {
  }

  // Feeding a byte is putting it into the register and taking eight steps.
  lemma ByteIsSteps(crc: bv32, x: bv32, poly: bv32)
    requires x & 0xff == x
    ensures FeedBits(crc, x, 8, poly) == Steps(Xor(crc, x), 8, poly)
  {
    FeedAtOnce(crc, x, 8, poly);
    Shifted8(x, 0);
    NoHighBits(x);
    XorZero(FeedBits(crc, x, 8, poly));
  }

  lemma Split(y: bv32)
    ensures Xor(y & 0xff, y & 0xffff_ff00) == y
    ensures (y & 0xffff_ff00) & 0xff == 0 && (y & 0xffff_ff00) >> 8 == y >> 8
  {
  }

  // The upper bits of the register only move down.
  lemma UpperMoveDown(y: bv32, poly: bv32)
    ensures Steps(y, 8, poly) == Xor(Steps(y & 0xff, 8, poly), y >> 8)
  {
    Split(y);
    FeedAtOnce(y & 0xff, y & 0xffff_ff00, 8, poly);
    Shifted8(y & 0xffff_ff00, 0);
    LowZero8(y & 0xffff_ff00);
    FeedZeros(y & 0xff, y & 0xffff_ff00, 8, poly);
  }

  lemma UpperBits(crc: bv32, x: bv32)
    requires x & 0xff == x
    ensures Xor(crc, x) >> 8 == crc >> 8
  {
  }

  lemma ByteByTable(crc: bv32, x: bv32, poly: bv32)
    requires x & 0xff == x
    ensures FeedBits(crc, x, 8, poly) == Xor(Steps(Xor(crc, x) & 0xff, 8, poly), crc >> 8)
  {
    ByteIsSteps(crc, x, poly);
    UpperMoveDown(Xor(crc, x), poly);
    UpperBits(crc, x);
  }

  // --- the tables ---

  function SctpRow0(i: bv8): bv32 {
    match i
    case 0x00 => 0x00000000 case 0x01 => 0xf26b8303 case 0x02 => 0xe13b70f7 case 0x03 => 0x1350f3f4
    case 0x04 => 0xc79a971f case 0x05 => 0x35f1141c case 0x06 => 0x26a1e7e8 case 0x07 => 0xd4ca64eb
    case 0x08 => 0x8ad958cf case 0x09 => 0x78b2dbcc case 0x0a => 0x6be22838 case 0x0b => 0x9989ab3b
    case 0x0c => 0x4d43cfd0 case 0x0d => 0xbf284cd3 case 0x0e => 0xac78bf27 case _ => 0x5e133c24
  }

  function SctpRow1(i: bv8): bv32 {
    match i
    case 0x10 => 0x105ec76f case 0x11 => 0xe235446c case 0x12 => 0xf165b798 case 0x13 => 0x030e349b
    case 0x14 => 0xd7c45070 case 0x15 => 0x25afd373 case 0x16 => 0x36ff2087 case 0x17 => 0xc494a384
    case 0x18 => 0x9a879fa0 case 0x19 => 0x68ec1ca3 case 0x1a => 0x7bbcef57 case 0x1b => 0x89d76c54
    case 0x1c => 0x5d1d08bf case 0x1d => 0xaf768bbc case 0x1e => 0xbc267848 case _ => 0x4e4dfb4b
  }

  function SctpRow2(i: bv8): bv32 {
    match i
    case 0x20 => 0x20bd8ede case 0x21 => 0xd2d60ddd case 0x22 => 0xc186fe29 case 0x23 => 0x33ed7d2a
    case 0x24 => 0xe72719c1 case 0x25 => 0x154c9ac2 case 0x26 => 0x061c6936 case 0x27 => 0xf477ea35
    case 0x28 => 0xaa64d611 case 0x29 => 0x580f5512 case 0x2a => 0x4b5fa6e6 case 0x2b => 0xb93425e5
    case 0x2c => 0x6dfe410e case 0x2d => 0x9f95c20d case 0x2e => 0x8cc531f9 case _ => 0x7eaeb2fa
  }

  function SctpRow3(i: bv8): bv32 {
    match i
    case 0x30 => 0x30e349b1 case 0x31 => 0xc288cab2 case 0x32 => 0xd1d83946 case 0x33 => 0x23b3ba45
    case 0x34 => 0xf779deae case 0x35 => 0x05125dad case 0x36 => 0x1642ae59 case 0x37 => 0xe4292d5a
    case 0x38 => 0xba3a117e case 0x39 => 0x4851927d case 0x3a => 0x5b016189 case 0x3b => 0xa96ae28a
    case 0x3c => 0x7da08661 case 0x3d => 0x8fcb0562 case 0x3e => 0x9c9bf696 case _ => 0x6ef07595
  }

  function SctpRow4(i: bv8): bv32 {
    match i
    case 0x40 => 0x417b1dbc case 0x41 => 0xb3109ebf case 0x42 => 0xa0406d4b case 0x43 => 0x522bee48
    case 0x44 => 0x86e18aa3 case 0x45 => 0x748a09a0 case 0x46 => 0x67dafa54 case 0x47 => 0x95b17957
    case 0x48 => 0xcba24573 case 0x49 => 0x39c9c670 case 0x4a => 0x2a993584 case 0x4b => 0xd8f2b687
    case 0x4c => 0x0c38d26c case 0x4d => 0xfe53516f case 0x4e => 0xed03a29b case _ => 0x1f682198
  }

  function SctpRow5(i: bv8): bv32 {
    match i
    case 0x50 => 0x5125dad3 case 0x51 => 0xa34e59d0 case 0x52 => 0xb01eaa24 case 0x53 => 0x42752927
    case 0x54 => 0x96bf4dcc case 0x55 => 0x64d4cecf case 0x56 => 0x77843d3b case 0x57 => 0x85efbe38
    case 0x58 => 0xdbfc821c case 0x59 => 0x2997011f case 0x5a => 0x3ac7f2eb case 0x5b => 0xc8ac71e8
    case 0x5c => 0x1c661503 case 0x5d => 0xee0d9600 case 0x5e => 0xfd5d65f4 case _ => 0x0f36e6f7
  }

  function SctpRow6(i: bv8): bv32 {
    match i
    case 0x60 => 0x61c69362 case 0x61 => 0x93ad1061 case 0x62 => 0x80fde395 case 0x63 => 0x72966096
    case 0x64 => 0xa65c047d case 0x65 => 0x5437877e case 0x66 => 0x4767748a case 0x67 => 0xb50cf789
    case 0x68 => 0xeb1fcbad case 0x69 => 0x197448ae case 0x6a => 0x0a24bb5a case 0x6b => 0xf84f3859
    case 0x6c => 0x2c855cb2 case 0x6d => 0xdeeedfb1 case 0x6e => 0xcdbe2c45 case _ => 0x3fd5af46
  }

  function SctpRow7(i: bv8): bv32 {
    match i
    case 0x70 => 0x7198540d case 0x71 => 0x83f3d70e case 0x72 => 0x90a324fa case 0x73 => 0x62c8a7f9
    case 0x74 => 0xb602c312 case 0x75 => 0x44694011 case 0x76 => 0x5739b3e5 case 0x77 => 0xa55230e6
    case 0x78 => 0xfb410cc2 case 0x79 => 0x092a8fc1 case 0x7a => 0x1a7a7c35 case 0x7b => 0xe811ff36
    case 0x7c => 0x3cdb9bdd case 0x7d => 0xceb018de case 0x7e => 0xdde0eb2a case _ => 0x2f8b6829
  }

  function SctpRow8(i: bv8): bv32 {
    match i
    case 0x80 => 0x82f63b78 case 0x81 => 0x709db87b case 0x82 => 0x63cd4b8f case 0x83 => 0x91a6c88c
    case 0x84 => 0x456cac67 case 0x85 => 0xb7072f64 case 0x86 => 0xa457dc90 case 0x87 => 0x563c5f93
    case 0x88 => 0x082f63b7 case 0x89 => 0xfa44e0b4 case 0x8a => 0xe9141340 case 0x8b => 0x1b7f9043
    case 0x8c => 0xcfb5f4a8 case 0x8d => 0x3dde77ab case 0x8e => 0x2e8e845f case _ => 0xdce5075c
  }

  function SctpRow9(i: bv8): bv32 {
    match i
    case 0x90 => 0x92a8fc17 case 0x91 => 0x60c37f14 case 0x92 => 0x73938ce0 case 0x93 => 0x81f80fe3
    case 0x94 => 0x55326b08 case 0x95 => 0xa759e80b case 0x96 => 0xb4091bff case 0x97 => 0x466298fc
    case 0x98 => 0x1871a4d8 case 0x99 => 0xea1a27db case 0x9a => 0xf94ad42f case 0x9b => 0x0b21572c
    case 0x9c => 0xdfeb33c7 case 0x9d => 0x2d80b0c4 case 0x9e => 0x3ed04330 case _ => 0xccbbc033
  }

  function SctpRowA(i: bv8): bv32 {
    match i
    case 0xa0 => 0xa24bb5a6 case 0xa1 => 0x502036a5 case 0xa2 => 0x4370c551 case 0xa3 => 0xb11b4652
    case 0xa4 => 0x65d122b9 case 0xa5 => 0x97baa1ba case 0xa6 => 0x84ea524e case 0xa7 => 0x7681d14d
    case 0xa8 => 0x2892ed69 case 0xa9 => 0xdaf96e6a case 0xaa => 0xc9a99d9e case 0xab => 0x3bc21e9d
    case 0xac => 0xef087a76 case 0xad => 0x1d63f975 case 0xae => 0x0e330a81 case _ => 0xfc588982
  }

  function SctpRowB(i: bv8): bv32 {
    match i
    case 0xb0 => 0xb21572c9 case 0xb1 => 0x407ef1ca case 0xb2 => 0x532e023e case 0xb3 => 0xa145813d
    case 0xb4 => 0x758fe5d6 case 0xb5 => 0x87e466d5 case 0xb6 => 0x94b49521 case 0xb7 => 0x66df1622
    case 0xb8 => 0x38cc2a06 case 0xb9 => 0xcaa7a905 case 0xba => 0xd9f75af1 case 0xbb => 0x2b9cd9f2
    case 0xbc => 0xff56bd19 case 0xbd => 0x0d3d3e1a case 0xbe => 0x1e6dcdee case _ => 0xec064eed
  }

  function SctpRowC(i: bv8): bv32 {
    match i
    case 0xc0 => 0xc38d26c4 case 0xc1 => 0x31e6a5c7 case 0xc2 => 0x22b65633 case 0xc3 => 0xd0ddd530
    case 0xc4 => 0x0417b1db case 0xc5 => 0xf67c32d8 case 0xc6 => 0xe52cc12c case 0xc7 => 0x1747422f
    case 0xc8 => 0x49547e0b case 0xc9 => 0xbb3ffd08 case 0xca => 0xa86f0efc case 0xcb => 0x5a048dff
    case 0xcc => 0x8ecee914 case 0xcd => 0x7ca56a17 case 0xce => 0x6ff599e3 case _ => 0x9d9e1ae0
  }

  function SctpRowD(i: bv8): bv32 {
    match i
    case 0xd0 => 0xd3d3e1ab case 0xd1 => 0x21b862a8 case 0xd2 => 0x32e8915c case 0xd3 => 0xc083125f
    case 0xd4 => 0x144976b4 case 0xd5 => 0xe622f5b7 case 0xd6 => 0xf5720643 case 0xd7 => 0x07198540
    case 0xd8 => 0x590ab964 case 0xd9 => 0xab613a67 case 0xda => 0xb831c993 case 0xdb => 0x4a5a4a90
    case 0xdc => 0x9e902e7b case 0xdd => 0x6cfbad78 case 0xde => 0x7fab5e8c case _ => 0x8dc0dd8f
  }

  function SctpRowE(i: bv8): bv32 {
    match i
    case 0xe0 => 0xe330a81a case 0xe1 => 0x115b2b19 case 0xe2 => 0x020bd8ed case 0xe3 => 0xf0605bee
    case 0xe4 => 0x24aa3f05 case 0xe5 => 0xd6c1bc06 case 0xe6 => 0xc5914ff2 case 0xe7 => 0x37faccf1
    case 0xe8 => 0x69e9f0d5 case 0xe9 => 0x9b8273d6 case 0xea => 0x88d28022 case 0xeb => 0x7ab90321
    case 0xec => 0xae7367ca case 0xed => 0x5c18e4c9 case 0xee => 0x4f48173d case _ => 0xbd23943e
  }

  function SctpRowF(i: bv8): bv32 {
    match i
    case 0xf0 => 0xf36e6f75 case 0xf1 => 0x0105ec76 case 0xf2 => 0x12551f82 case 0xf3 => 0xe03e9c81
    case 0xf4 => 0x34f4f86a case 0xf5 => 0xc69f7b69 case 0xf6 => 0xd5cf889d case 0xf7 => 0x27a40b9e
    case 0xf8 => 0x79b737ba case 0xf9 => 0x8bdcb4b9 case 0xfa => 0x988c474d case 0xfb => 0x6ae7c44e
    case 0xfc => 0xbe2da0a5 case 0xfd => 0x4c4623a6 case 0xfe => 0x5f16d052 case _ => 0xad7d5351
  }

  function SctpTable(i: bv8): bv32 {
    match i >> 4
    case 0 => SctpRow0(i) case 1 => SctpRow1(i) case 2 => SctpRow2(i) case 3 => SctpRow3(i)
    case 4 => SctpRow4(i) case 5 => SctpRow5(i) case 6 => SctpRow6(i) case 7 => SctpRow7(i)
    case 8 => SctpRow8(i) case 9 => SctpRow9(i) case 10 => SctpRowA(i) case 11 => SctpRowB(i)
    case 12 => SctpRowC(i) case 13 => SctpRowD(i) case 14 => SctpRowE(i) case _ => SctpRowF(i)
  }

  function StunRow0(i: bv8): bv32 {
    match i
    case 0x00 => 0x00000000 case 0x01 => 0x77073096 case 0x02 => 0xee0e612c case 0x03 => 0x990951ba
    case 0x04 => 0x076dc419 case 0x05 => 0x706af48f case 0x06 => 0xe963a535 case 0x07 => 0x9e6495a3
    case 0x08 => 0x0edb8832 case 0x09 => 0x79dcb8a4 case 0x0a => 0xe0d5e91e case 0x0b => 0x97d2d988
    case 0x0c => 0x09b64c2b case 0x0d => 0x7eb17cbd case 0x0e => 0xe7b82d07 case _ => 0x90bf1d91
  }

  function StunRow1(i: bv8): bv32 {
    match i
    case 0x10 => 0x1db71064 case 0x11 => 0x6ab020f2 case 0x12 => 0xf3b97148 case 0x13 => 0x84be41de
    case 0x14 => 0x1adad47d case 0x15 => 0x6ddde4eb case 0x16 => 0xf4d4b551 case 0x17 => 0x83d385c7
    case 0x18 => 0x136c9856 case 0x19 => 0x646ba8c0 case 0x1a => 0xfd62f97a case 0x1b => 0x8a65c9ec
    case 0x1c => 0x14015c4f case 0x1d => 0x63066cd9 case 0x1e => 0xfa0f3d63 case _ => 0x8d080df5
  }

  function StunRow2(i: bv8): bv32 {
    match i
    case 0x20 => 0x3b6e20c8 case 0x21 => 0x4c69105e case 0x22 => 0xd56041e4 case 0x23 => 0xa2677172
    case 0x24 => 0x3c03e4d1 case 0x25 => 0x4b04d447 case 0x26 => 0xd20d85fd case 0x27 => 0xa50ab56b
    case 0x28 => 0x35b5a8fa case 0x29 => 0x42b2986c case 0x2a => 0xdbbbc9d6 case 0x2b => 0xacbcf940
    case 0x2c => 0x32d86ce3 case 0x2d => 0x45df5c75 case 0x2e => 0xdcd60dcf case _ => 0xabd13d59
  }

  function StunRow3(i: bv8): bv32 {
    match i
    case 0x30 => 0x26d930ac case 0x31 => 0x51de003a case 0x32 => 0xc8d75180 case 0x33 => 0xbfd06116
    case 0x34 => 0x21b4f4b5 case 0x35 => 0x56b3c423 case 0x36 => 0xcfba9599 case 0x37 => 0xb8bda50f
    case 0x38 => 0x2802b89e case 0x39 => 0x5f058808 case 0x3a => 0xc60cd9b2 case 0x3b => 0xb10be924
    case 0x3c => 0x2f6f7c87 case 0x3d => 0x58684c11 case 0x3e => 0xc1611dab case _ => 0xb6662d3d
  }

  function StunRow4(i: bv8): bv32 {
    match i
    case 0x40 => 0x76dc4190 case 0x41 => 0x01db7106 case 0x42 => 0x98d220bc case 0x43 => 0xefd5102a
    case 0x44 => 0x71b18589 case 0x45 => 0x06b6b51f case 0x46 => 0x9fbfe4a5 case 0x47 => 0xe8b8d433
    case 0x48 => 0x7807c9a2 case 0x49 => 0x0f00f934 case 0x4a => 0x9609a88e case 0x4b => 0xe10e9818
    case 0x4c => 0x7f6a0dbb case 0x4d => 0x086d3d2d case 0x4e => 0x91646c97 case _ => 0xe6635c01
  }

  function StunRow5(i: bv8): bv32 {
    match i
    case 0x50 => 0x6b6b51f4 case 0x51 => 0x1c6c6162 case 0x52 => 0x856530d8 case 0x53 => 0xf262004e
    case 0x54 => 0x6c0695ed case 0x55 => 0x1b01a57b case 0x56 => 0x8208f4c1 case 0x57 => 0xf50fc457
    case 0x58 => 0x65b0d9c6 case 0x59 => 0x12b7e950 case 0x5a => 0x8bbeb8ea case 0x5b => 0xfcb9887c
    case 0x5c => 0x62dd1ddf case 0x5d => 0x15da2d49 case 0x5e => 0x8cd37cf3 case _ => 0xfbd44c65
  }

  function StunRow6(i: bv8): bv32 {
    match i
    case 0x60 => 0x4db26158 case 0x61 => 0x3ab551ce case 0x62 => 0xa3bc0074 case 0x63 => 0xd4bb30e2
    case 0x64 => 0x4adfa541 case 0x65 => 0x3dd895d7 case 0x66 => 0xa4d1c46d case 0x67 => 0xd3d6f4fb
    case 0x68 => 0x4369e96a case 0x69 => 0x346ed9fc case 0x6a => 0xad678846 case 0x6b => 0xda60b8d0
    case 0x6c => 0x44042d73 case 0x6d => 0x33031de5 case 0x6e => 0xaa0a4c5f case _ => 0xdd0d7cc9
  }

  function StunRow7(i: bv8): bv32 {
    match i
    case 0x70 => 0x5005713c case 0x71 => 0x270241aa case 0x72 => 0xbe0b1010 case 0x73 => 0xc90c2086
    case 0x74 => 0x5768b525 case 0x75 => 0x206f85b3 case 0x76 => 0xb966d409 case 0x77 => 0xce61e49f
    case 0x78 => 0x5edef90e case 0x79 => 0x29d9c998 case 0x7a => 0xb0d09822 case 0x7b => 0xc7d7a8b4
    case 0x7c => 0x59b33d17 case 0x7d => 0x2eb40d81 case 0x7e => 0xb7bd5c3b case _ => 0xc0ba6cad
  }

  function StunRow8(i: bv8): bv32 {
    match i
    case 0x80 => 0xedb88320 case 0x81 => 0x9abfb3b6 case 0x82 => 0x03b6e20c case 0x83 => 0x74b1d29a
    case 0x84 => 0xead54739 case 0x85 => 0x9dd277af case 0x86 => 0x04db2615 case 0x87 => 0x73dc1683
    case 0x88 => 0xe3630b12 case 0x89 => 0x94643b84 case 0x8a => 0x0d6d6a3e case 0x8b => 0x7a6a5aa8
    case 0x8c => 0xe40ecf0b case 0x8d => 0x9309ff9d case 0x8e => 0x0a00ae27 case _ => 0x7d079eb1
  }

  function StunRow9(i: bv8): bv32 {
    match i
    case 0x90 => 0xf00f9344 case 0x91 => 0x8708a3d2 case 0x92 => 0x1e01f268 case 0x93 => 0x6906c2fe
    case 0x94 => 0xf762575d case 0x95 => 0x806567cb case 0x96 => 0x196c3671 case 0x97 => 0x6e6b06e7
    case 0x98 => 0xfed41b76 case 0x99 => 0x89d32be0 case 0x9a => 0x10da7a5a case 0x9b => 0x67dd4acc
    case 0x9c => 0xf9b9df6f case 0x9d => 0x8ebeeff9 case 0x9e => 0x17b7be43 case _ => 0x60b08ed5
  }

  function StunRowA(i: bv8): bv32 {
    match i
    case 0xa0 => 0xd6d6a3e8 case 0xa1 => 0xa1d1937e case 0xa2 => 0x38d8c2c4 case 0xa3 => 0x4fdff252
    case 0xa4 => 0xd1bb67f1 case 0xa5 => 0xa6bc5767 case 0xa6 => 0x3fb506dd case 0xa7 => 0x48b2364b
    case 0xa8 => 0xd80d2bda case 0xa9 => 0xaf0a1b4c case 0xaa => 0x36034af6 case 0xab => 0x41047a60
    case 0xac => 0xdf60efc3 case 0xad => 0xa867df55 case 0xae => 0x316e8eef case _ => 0x4669be79
  }

  function StunRowB(i: bv8): bv32 {
    match i
    case 0xb0 => 0xcb61b38c case 0xb1 => 0xbc66831a case 0xb2 => 0x256fd2a0 case 0xb3 => 0x5268e236
    case 0xb4 => 0xcc0c7795 case 0xb5 => 0xbb0b4703 case 0xb6 => 0x220216b9 case 0xb7 => 0x5505262f
    case 0xb8 => 0xc5ba3bbe case 0xb9 => 0xb2bd0b28 case 0xba => 0x2bb45a92 case 0xbb => 0x5cb36a04
    case 0xbc => 0xc2d7ffa7 case 0xbd => 0xb5d0cf31 case 0xbe => 0x2cd99e8b case _ => 0x5bdeae1d
  }

  function StunRowC(i: bv8): bv32 {
    match i
    case 0xc0 => 0x9b64c2b0 case 0xc1 => 0xec63f226 case 0xc2 => 0x756aa39c case 0xc3 => 0x026d930a
    case 0xc4 => 0x9c0906a9 case 0xc5 => 0xeb0e363f case 0xc6 => 0x72076785 case 0xc7 => 0x05005713
    case 0xc8 => 0x95bf4a82 case 0xc9 => 0xe2b87a14 case 0xca => 0x7bb12bae case 0xcb => 0x0cb61b38
    case 0xcc => 0x92d28e9b case 0xcd => 0xe5d5be0d case 0xce => 0x7cdcefb7 case _ => 0x0bdbdf21
  }

  function StunRowD(i: bv8): bv32 {
    match i
    case 0xd0 => 0x86d3d2d4 case 0xd1 => 0xf1d4e242 case 0xd2 => 0x68ddb3f8 case 0xd3 => 0x1fda836e
    case 0xd4 => 0x81be16cd case 0xd5 => 0xf6b9265b case 0xd6 => 0x6fb077e1 case 0xd7 => 0x18b74777
    case 0xd8 => 0x88085ae6 case 0xd9 => 0xff0f6a70 case 0xda => 0x66063bca case 0xdb => 0x11010b5c
    case 0xdc => 0x8f659eff case 0xdd => 0xf862ae69 case 0xde => 0x616bffd3 case _ => 0x166ccf45
  }

  function StunRowE(i: bv8): bv32 {
    match i
    case 0xe0 => 0xa00ae278 case 0xe1 => 0xd70dd2ee case 0xe2 => 0x4e048354 case 0xe3 => 0x3903b3c2
    case 0xe4 => 0xa7672661 case 0xe5 => 0xd06016f7 case 0xe6 => 0x4969474d case 0xe7 => 0x3e6e77db
    case 0xe8 => 0xaed16a4a case 0xe9 => 0xd9d65adc case 0xea => 0x40df0b66 case 0xeb => 0x37d83bf0
    case 0xec => 0xa9bcae53 case 0xed => 0xdebb9ec5 case 0xee => 0x47b2cf7f case _ => 0x30b5ffe9
  }

  function StunRowF(i: bv8): bv32 {
    match i
    case 0xf0 => 0xbdbdf21c case 0xf1 => 0xcabac28a case 0xf2 => 0x53b39330 case 0xf3 => 0x24b4a3a6
    case 0xf4 => 0xbad03605 case 0xf5 => 0xcdd70693 case 0xf6 => 0x54de5729 case 0xf7 => 0x23d967bf
    case 0xf8 => 0xb3667a2e case 0xf9 => 0xc4614ab8 case 0xfa => 0x5d681b02 case 0xfb => 0x2a6f2b94
    case 0xfc => 0xb40bbe37 case 0xfd => 0xc30c8ea1 case 0xfe => 0x5a05df1b case _ => 0x2d02ef8d
  }

  function StunTable(i: bv8): bv32 {
    match i >> 4
    case 0 => StunRow0(i) case 1 => StunRow1(i) case 2 => StunRow2(i) case 3 => StunRow3(i)
    case 4 => StunRow4(i) case 5 => StunRow5(i) case 6 => StunRow6(i) case 7 => StunRow7(i)
    case 8 => StunRow8(i) case 9 => StunRow9(i) case 10 => StunRowA(i) case 11 => StunRowB(i)
    case 12 => StunRowC(i) case 13 => StunRowD(i) case 14 => StunRowE(i) case _ => StunRowF(i)
  }

  lemma SctpRow0Ok(i: bv8)
    requires i >> 4 == 0
    ensures SctpRow0(i) == Eight(i as bv32, CASTAGNOLI)
  {
  }

  lemma SctpRow1Ok(i: bv8)
    requires i >> 4 == 1
    ensures SctpRow1(i) == Eight(i as bv32, CASTAGNOLI)
  {
  }

  lemma SctpRow2Ok(i: bv8)
    requires i >> 4 == 2
    ensures SctpRow2(i) == Eight(i as bv32, CASTAGNOLI)
  {
  }

  lemma SctpRow3Ok(i: bv8)
    requires i >> 4 == 3
    ensures SctpRow3(i) == Eight(i as bv32, CASTAGNOLI)
  {
  }

  lemma SctpRow4Ok(i: bv8)
    requires i >> 4 == 4
    ensures SctpRow4(i) == Eight(i as bv32, CASTAGNOLI)
  {
  }

  lemma SctpRow5Ok(i: bv8)
    requires i >> 4 == 5
    ensures SctpRow5(i) == Eight(i as bv32, CASTAGNOLI)
  {
  }

  lemma SctpRow6Ok(i: bv8)
    requires i >> 4 == 6
    ensures SctpRow6(i) == Eight(i as bv32, CASTAGNOLI)
  {
  }

  lemma SctpRow7Ok(i: bv8)
    requires i >> 4 == 7
    ensures SctpRow7(i) == Eight(i as bv32, CASTAGNOLI)
  {
  }

  lemma SctpRow8Ok(i: bv8)
    requires i >> 4 == 8
    ensures SctpRow8(i) == Eight(i as bv32, CASTAGNOLI)
  {
  }

  lemma SctpRow9Ok(i: bv8)
    requires i >> 4 == 9
    ensures SctpRow9(i) == Eight(i as bv32, CASTAGNOLI)
  {
  }

  lemma SctpRowAOk(i: bv8)
    requires i >> 4 == 10
    ensures SctpRowA(i) == Eight(i as bv32, CASTAGNOLI)
  {
  }

  lemma SctpRowBOk(i: bv8)
    requires i >> 4 == 11
    ensures SctpRowB(i) == Eight(i as bv32, CASTAGNOLI)
  {
  }

  lemma SctpRowCOk(i: bv8)
    requires i >> 4 == 12
    ensures SctpRowC(i) == Eight(i as bv32, CASTAGNOLI)
  {
  }

  lemma SctpRowDOk(i: bv8)
    requires i >> 4 == 13
    ensures SctpRowD(i) == Eight(i as bv32, CASTAGNOLI)
  {
  }

  lemma SctpRowEOk(i: bv8)
    requires i >> 4 == 14
    ensures SctpRowE(i) == Eight(i as bv32, CASTAGNOLI)
  {
  }

  lemma SctpRowFOk(i: bv8)
    requires i >> 4 == 15
    ensures SctpRowF(i) == Eight(i as bv32, CASTAGNOLI)
  {
  }

  /** Every entry of the table is what eight steps make of its index. */
  lemma SctpTableOk(i: bv8)
    ensures SctpTable(i) == Eight(i as bv32, CASTAGNOLI)
  {
    match i >> 4
    case 0 => SctpRow0Ok(i);
    case 1 => SctpRow1Ok(i);
    case 2 => SctpRow2Ok(i);
    case 3 => SctpRow3Ok(i);
    case 4 => SctpRow4Ok(i);
    case 5 => SctpRow5Ok(i);
    case 6 => SctpRow6Ok(i);
    case 7 => SctpRow7Ok(i);
    case 8 => SctpRow8Ok(i);
    case 9 => SctpRow9Ok(i);
    case 10 => SctpRowAOk(i);
    case 11 => SctpRowBOk(i);
    case 12 => SctpRowCOk(i);
    case 13 => SctpRowDOk(i);
    case 14 => SctpRowEOk(i);
    case _ => SctpRowFOk(i);
  }

  lemma StunRow0Ok(i: bv8)
    requires i >> 4 == 0
    ensures StunRow0(i) == Eight(i as bv32, IEEE)
  {
  }

  lemma StunRow1Ok(i: bv8)
    requires i >> 4 == 1
    ensures StunRow1(i) == Eight(i as bv32, IEEE)
  {
  }

  lemma StunRow2Ok(i: bv8)
    requires i >> 4 == 2
    ensures StunRow2(i) == Eight(i as bv32, IEEE)
  {
  }

  lemma StunRow3Ok(i: bv8)
    requires i >> 4 == 3
    ensures StunRow3(i) == Eight(i as bv32, IEEE)
  {
  }

  lemma StunRow4Ok(i: bv8)
    requires i >> 4 == 4
    ensures StunRow4(i) == Eight(i as bv32, IEEE)
  {
  }

  lemma StunRow5Ok(i: bv8)
    requires i >> 4 == 5
    ensures StunRow5(i) == Eight(i as bv32, IEEE)
  {
  }

  lemma StunRow6Ok(i: bv8)
    requires i >> 4 == 6
    ensures StunRow6(i) == Eight(i as bv32, IEEE)
  {
  }

  lemma StunRow7Ok(i: bv8)
    requires i >> 4 == 7
    ensures StunRow7(i) == Eight(i as bv32, IEEE)
  {
  }

  lemma StunRow8Ok(i: bv8)
    requires i >> 4 == 8
    ensures StunRow8(i) == Eight(i as bv32, IEEE)
  {
  }

  lemma StunRow9Ok(i: bv8)
    requires i >> 4 == 9
    ensures StunRow9(i) == Eight(i as bv32, IEEE)
  {
  }

  lemma StunRowAOk(i: bv8)
    requires i >> 4 == 10
    ensures StunRowA(i) == Eight(i as bv32, IEEE)
  {
  }

  lemma StunRowBOk(i: bv8)
    requires i >> 4 == 11
    ensures StunRowB(i) == Eight(i as bv32, IEEE)
  {
  }

  lemma StunRowCOk(i: bv8)
    requires i >> 4 == 12
    ensures StunRowC(i) == Eight(i as bv32, IEEE)
  {
  }

  lemma StunRowDOk(i: bv8)
    requires i >> 4 == 13
    ensures StunRowD(i) == Eight(i as bv32, IEEE)
  {
  }

  lemma StunRowEOk(i: bv8)
    requires i >> 4 == 14
    ensures StunRowE(i) == Eight(i as bv32, IEEE)
  {
  }

  lemma StunRowFOk(i: bv8)
    requires i >> 4 == 15
    ensures StunRowF(i) == Eight(i as bv32, IEEE)
  {
  }

  /** Every entry of the table is what eight steps make of its index. */
  lemma StunTableOk(i: bv8)
    ensures StunTable(i) == Eight(i as bv32, IEEE)
  {
    match i >> 4
    case 0 => StunRow0Ok(i);
    case 1 => StunRow1Ok(i);
    case 2 => StunRow2Ok(i);
    case 3 => StunRow3Ok(i);
    case 4 => StunRow4Ok(i);
    case 5 => StunRow5Ok(i);
    case 6 => StunRow6Ok(i);
    case 7 => StunRow7Ok(i);
    case 8 => StunRow8Ok(i);
    case 9 => StunRow9Ok(i);
    case 10 => StunRowAOk(i);
    case 11 => StunRowBOk(i);
    case 12 => StunRowCOk(i);
    case 13 => StunRowDOk(i);
    case 14 => StunRowEOk(i);
    case _ => StunRowFOk(i);
  }

  // --- the two functions ---

  lemma Index(y: bv32)
    ensures ((y & 0xff) as bv8) as bv32 == y & 0xff
  {
  }

  lemma OneByte(b: byte)
    ensures Word(b) & 0xff == Word(b)
  {
    var x := b as bv8;
    WideByte(x);
  }

  lemma WideByte(x: bv8)
    ensures (x as bv32) & 0xff == x as bv32
  {
  }

  ghost predicate Divides(table: bv8 -> bv32, poly: bv32) {
    forall i: bv8 :: table(i) == Steps(i as bv32, 8, poly)
  }

  method Crc32TabOfSctp() returns (table: bv8 -> bv32)
    ensures Divides(table, CASTAGNOLI)
  {
    forall i: bv8
      ensures SctpTable(i) == Steps(i as bv32, 8, CASTAGNOLI)
    {
      SctpTableOk(i);
      StepsIsEight(i as bv32, CASTAGNOLI);
    }
    table := SctpTable;
  }

  method Crc32TabOfStun() returns (table: bv8 -> bv32)
    ensures Divides(table, IEEE)
  {
    forall i: bv8
      ensures StunTable(i) == Steps(i as bv32, 8, IEEE)
    {
      StunTableOk(i);
      StepsIsEight(i as bv32, IEEE);
    }
    table := StunTable;
  }

  // The line of code that takes one byte in.
  function Next(table: bv8 -> bv32, crc: bv32, x: bv32): bv32 {
    Xor(table((Xor(crc, x) & 0xff) as bv8), crc >> 8)
  }

  lemma EntryAt(table: bv8 -> bv32, y: bv32, poly: bv32)
    requires Divides(table, poly)
    ensures table((y & 0xff) as bv8) == Steps(y & 0xff, 8, poly)
  {
    Index(y);
    var i := (y & 0xff) as bv8;
    assert table(i) == Steps(i as bv32, 8, poly);
  }

  lemma EntryFeeds(crc: bv32, x: bv32, entry: bv32, poly: bv32)
    requires x & 0xff == x && entry == Steps(Xor(crc, x) & 0xff, 8, poly)
    ensures Xor(entry, crc >> 8) == FeedBits(crc, x, 8, poly)
  {
    ByteByTable(crc, x, poly);
  }

  lemma NextFeeds(table: bv8 -> bv32, crc: bv32, x: bv32, poly: bv32)
    requires Divides(table, poly) && x & 0xff == x
    ensures Next(table, crc, x) == FeedBits(crc, x, 8, poly)
  {
    EntryAt(table, Xor(crc, x), poly);
    EntryFeeds(crc, x, table((Xor(crc, x) & 0xff) as bv8), poly);
  }

  predicate Fed(crc: bv32, msg: seq<byte>, i: nat, poly: bv32) {
    i <= |msg| && crc == Feed(ALL_ONES, msg[..i], poly)
  }

  /** Looking up a byte feeds it. */
  lemma LookUpFeeds(table: bv8 -> bv32, crc: bv32, msg: seq<byte>, i: nat, poly: bv32)
    requires Divides(table, poly) && i < |msg| && Fed(crc, msg, i, poly)
    ensures Fed(Next(table, crc, Word(msg[i])), msg, i + 1, poly)
  {
    OneByte(msg[i]);
    NextFeeds(table, crc, Word(msg[i]), poly);
    assert msg[..i + 1][..i] == msg[..i];
  }

  method TakeByte(table: bv8 -> bv32, crc: bv32, b: byte, ghost msg: seq<byte>, ghost i: nat, ghost poly: bv32)
    returns (next: bv32)
    requires Divides(table, poly) && i < |msg| && msg[i] == b && Fed(crc, msg, i, poly)
    ensures Fed(next, msg, i + 1, poly)
  {
    LookUpFeeds(table, crc, msg, i, poly);
    next := Next(table, crc, Word(b));
  }

  const HEADER_SIZE := 12

  // As if the checksum field were all zeros.
  function Zeroed(packet: seq<byte>): (z: seq<byte>)
    requires |packet| >= HEADER_SIZE
    ensures |z| == |packet|
  {
    seq(|packet|, i requires 0 <= i < |packet| => if 8 <= i < 12 then 0 else packet[i])
  }

  function Swap(crc: bv32): bv32 {
    (crc << 24) + ((crc << 8) & 0x00ff_0000) + ((crc >> 8) & 0x0000_ff00) + (crc >> 24)
  }

  function SctpCrc(packet: seq<byte>): bv32 {
    if |packet| < HEADER_SIZE then ALL_ONES
    else Swap(!Feed(ALL_ONES, Zeroed(packet), CASTAGNOLI))
  }

  const FINGERPRINT_XOR: bv32 := 0x5354_554e

  function StunCrc(msg: seq<byte>): bv32 {
    Feed(ALL_ONES, msg, IEEE) ^ ALL_ONES ^ FINGERPRINT_XOR
  }

  method Crc32Sctp(buf: seq<byte>) returns (crc: bv32)
    ensures crc == SctpCrc(buf)
  {
    if |buf| < HEADER_SIZE {
      return 0xffff_ffff;
    }
    crc := FeedPacket(buf);
    assert Zeroed(buf)[..|buf|] == Zeroed(buf);
    crc := !crc;
    crc := Swap(crc);
  }

  method FeedPacket(buf: seq<byte>) returns (crc: bv32)
    requires |buf| >= HEADER_SIZE
    ensures Fed(crc, Zeroed(buf), |buf|, CASTAGNOLI)
  {
    crc := 0xffff_ffff;
    var table := Crc32TabOfSctp();
    ghost var z := Zeroed(buf);
    for i := 0 to 8
      invariant Fed(crc, z, i, CASTAGNOLI)
    {
      crc := TakeByte(table, crc, buf[i], z, i, CASTAGNOLI);
    }
    for i := 0 to 4
      invariant Fed(crc, z, 8 + i, CASTAGNOLI)
    {
      crc := TakeByte(table, crc, 0, z, 8 + i, CASTAGNOLI);
    }
    var p := 12;
    while p < |buf|
      invariant p <= |buf| && Fed(crc, z, p, CASTAGNOLI)
    {
      crc := TakeByte(table, crc, buf[p], z, p, CASTAGNOLI);
      p := p + 1;
    }
  }

  method Crc32Xor(buf: seq<byte>) returns (crc: bv32)
    ensures crc == StunCrc(buf)
  {
    crc := 0xffff_ffff;
    var table := Crc32TabOfStun();
    var p := 0;
    while p < |buf|
      invariant p <= |buf| && Fed(crc, buf, p, IEEE)
    {
      crc := TakeByte(table, crc, buf[p], buf, p, IEEE);
      p := p + 1;
    }
    assert buf[..p] == buf;
    crc := (crc ^ 0xffff_ffff) ^ FINGERPRINT_XOR;
  }

  // --- what the checksums detect ---

  lemma BitStepInjective(a: bv32, b: bv32, poly: bv32)
    requires poly & 0x8000_0000 != 0 && BitStep(a, poly) == BitStep(b, poly)
    ensures a == b
  {
  }

  lemma {:induction false} StepsInjective(a: bv32, b: bv32, n: nat, poly: bv32)
    requires poly & 0x8000_0000 != 0 && Steps(a, n, poly) == Steps(b, n, poly)
    ensures a == b
    decreases n
  {
    if n > 0 {
      StepsInjective(BitStep(a, poly), BitStep(b, poly), n - 1, poly);
      BitStepInjective(a, b, poly);
    }
  }

  lemma XorCancel(a: bv32, b: bv32, x: bv32)
    ensures Xor(a, x) == Xor(b, x) ==> a == b
    ensures Xor(x, a) == Xor(x, b) ==> a == b
  {
  }

  lemma FeedBitsInjective(a: bv32, b: bv32, bits: bv32, n: nat, poly: bv32)
    requires poly & 0x8000_0000 != 0 && FeedBits(a, bits, n, poly) == FeedBits(b, bits, n, poly)
    ensures a == b
  {
    FeedAtOnce(a, bits, n, poly);
    FeedAtOnce(b, bits, n, poly);
    StepsInjective(Xor(a, bits), Xor(b, bits), n, poly);
    XorCancel(a, b, bits);
  }

  lemma {:induction false} StepsAdd(x: bv32, m: nat, n: nat, poly: bv32)
    ensures Steps(Steps(x, m, poly), n, poly) == Steps(x, m + n, poly)
    decreases m
  {
    if m > 0 {
      StepsAdd(BitStep(x, poly), m - 1, n, poly);
    }
  }

  // A byte that goes in after n bits could have been in the register before them, n bits up.
  lemma FeedEarlier(c: bv32, up: bv32, x: bv32, n: nat, poly: bv32)
    requires x & 0xff == x && LowZero(up, n) && Shifted(up, n) == x
    ensures FeedBits(Steps(c, n, poly), x, 8, poly) == Steps(Xor(c, up), n + 8, poly)
  {
    FeedAtOnce(c, up, n, poly);
    FeedZeros(c, up, n, poly);
    ByteIsSteps(Steps(c, n, poly), x, poly);
    StepsAdd(Xor(c, up), n, 8, poly);
  }

  lemma Up8(x: bv32)
    requires x & 0xff == x
    ensures LowZero(x << 8, 8) && Shifted(x << 8, 8) == x
  {
    UpAndDown(x);
    LowZero8(x << 8);
    Shifted8(x << 8, 0);
  }

  lemma LowZeroMore(x: bv32, n: nat)
    requires x & 0xff == 0 && LowZero(x >> 8, n)
    ensures LowZero(x, n + 8)
  {
    ShiftTwice(x);
    Nibbles(x);
    LowZero4(x >> 4, n);
    LowZero4(x, n + 4);
  }

  lemma Nibbles(x: bv32)
    requires x & 0xff == 0
    ensures x & 0xf == 0 && (x >> 4) & 0xf == 0
  {
  }

  lemma UpAndDown(x: bv32)
    requires x & 0xff == x
    ensures (x << 8) & 0xff == 0 && (x << 8) >> 8 == x
    ensures (x << 16) & 0xff == 0 && (x << 16) >> 8 == x << 8
    ensures (x << 24) & 0xff == 0 && (x << 24) >> 8 == x << 16
  {
  }

  lemma Up16(x: bv32)
    requires x & 0xff == x
    ensures LowZero(x << 16, 16) && Shifted(x << 16, 16) == x
  {
    UpAndDown(x);
    Up8(x);
    LowZeroMore(x << 16, 8);
    Shifted8(x << 16, 8);
  }

  lemma Up24(x: bv32)
    requires x & 0xff == x
    ensures LowZero(x << 24, 24) && Shifted(x << 24, 24) == x
  {
    UpAndDown(x);
    Up16(x);
    LowZeroMore(x << 24, 16);
    Shifted8(x << 24, 16);
  }

  function Feed4(crc: bv32, x0: bv32, x1: bv32, x2: bv32, x3: bv32, poly: bv32): bv32 {
    FeedBits(FeedBits(FeedBits(FeedBits(crc, x0, 8, poly), x1, 8, poly), x2, 8, poly), x3, 8, poly)
  }

  lemma Feed2AtOnce(crc: bv32, x0: bv32, x1: bv32, poly: bv32)
    requires x0 & 0xff == x0 && x1 & 0xff == x1
    ensures FeedBits(FeedBits(crc, x0, 8, poly), x1, 8, poly) == Steps(Xor(Xor(crc, x0), x1 << 8), 16, poly)
  {
    ByteIsSteps(crc, x0, poly);
    Up8(x1);
    FeedEarlier(Xor(crc, x0), x1 << 8, x1, 8, poly);
  }

  lemma Feed4AtOnce(crc: bv32, x0: bv32, x1: bv32, x2: bv32, x3: bv32, poly: bv32)
    requires x0 & 0xff == x0 && x1 & 0xff == x1 && x2 & 0xff == x2 && x3 & 0xff == x3
    ensures Feed4(crc, x0, x1, x2, x3, poly) == Steps(Xor(Xor(Xor(Xor(crc, x0), x1 << 8), x2 << 16), x3 << 24), 32, poly)
  {
    var c1 := Xor(Xor(crc, x0), x1 << 8);
    Feed2AtOnce(crc, x0, x1, poly);
    Up16(x2);
    FeedEarlier(c1, x2 << 16, x2, 16, poly);
    Up24(x3);
    FeedEarlier(Xor(c1, x2 << 16), x3 << 24, x3, 24, poly);
  }

  lemma PackedInjective(c: bv32, x0: bv32, x1: bv32, x2: bv32, x3: bv32, y0: bv32, y1: bv32, y2: bv32, y3: bv32)
    requires x0 & 0xff == x0 && x1 & 0xff == x1 && x2 & 0xff == x2 && x3 & 0xff == x3
    requires y0 & 0xff == y0 && y1 & 0xff == y1 && y2 & 0xff == y2 && y3 & 0xff == y3
    requires Xor(Xor(Xor(Xor(c, x0), x1 << 8), x2 << 16), x3 << 24) == Xor(Xor(Xor(Xor(c, y0), y1 << 8), y2 << 16), y3 << 24)
    ensures x0 == y0 && x1 == y1 && x2 == y2 && x3 == y3
  {
  }

  lemma WideInjective(x: bv8, y: bv8)
    requires x as bv32 == y as bv32
    ensures x == y
  {
  }

  lemma WordInjective(a: byte, b: byte)
    requires Word(a) == Word(b)
    ensures a == b
  {
    WideInjective(a as bv8, b as bv8);
    ByteBits.ThereAndBack(a);
    ByteBits.ThereAndBack(b);
  }

  lemma FeedNext(crc: bv32, msg: seq<byte>, k: nat, poly: bv32)
    requires k < |msg|
    ensures Feed(crc, msg[..k + 1], poly) == FeedBits(Feed(crc, msg[..k], poly), Word(msg[k]), 8, poly)
  {
    assert msg[..k + 1][..k] == msg[..k];
  }

  lemma Feed4Next(crc: bv32, msg: seq<byte>, k: nat, poly: bv32)
    requires k + 4 <= |msg|
    ensures Feed(crc, msg[..k + 4], poly)
         == Feed4(Feed(crc, msg[..k], poly), Word(msg[k]), Word(msg[k + 1]), Word(msg[k + 2]), Word(msg[k + 3]), poly)
  {
    FeedNext(crc, msg, k, poly);
    FeedNext(crc, msg, k + 1, poly);
    FeedNext(crc, msg, k + 2, poly);
    FeedNext(crc, msg, k + 3, poly);
  }

  // Once two messages have led to different registers, equal bytes keep them different.
  lemma {:induction false} StaysDifferent(crc: bv32, a: seq<byte>, b: seq<byte>, k: nat, poly: bv32)
    requires poly & 0x8000_0000 != 0 && k <= |a| == |b| && a[k..] == b[k..]
    requires Feed(crc, a, poly) == Feed(crc, b, poly)
    ensures Feed(crc, a[..k], poly) == Feed(crc, b[..k], poly)
    decreases |a| - k
  {
    if k == |a| {
      assert a[..k] == a && b[..k] == b;
    } else {
      assert a[k + 1..] == a[k..][1..] == b[k..][1..] == b[k + 1..];
      StaysDifferent(crc, a, b, k + 1, poly);
      assert a[..k + 1][..k] == a[..k] && b[..k + 1][..k] == b[..k];
      assert a[k] == a[k..][0] == b[k..][0] == b[k];
      FeedBitsInjective(Feed(crc, a[..k], poly), Feed(crc, b[..k], poly), Word(a[k]), 8, poly);
    }
  }

  /** A burst of errors is detected: two messages that agree but for four consecutive bytes have
      the same remainder only if they are equal. */
  lemma BurstDetected(crc: bv32, a: seq<byte>, b: seq<byte>, k: nat, poly: bv32)
    requires poly & 0x8000_0000 != 0 && k + 4 <= |a| == |b| && a[..k] == b[..k] && a[k + 4..] == b[k + 4..]
    ensures Feed(crc, a, poly) == Feed(crc, b, poly) <==> a == b
  {
    if Feed(crc, a, poly) == Feed(crc, b, poly) {
      StaysDifferent(crc, a, b, k + 4, poly);
      Feed4Next(crc, a, k, poly);
      Feed4Next(crc, b, k, poly);
      SameFour(Feed(crc, a[..k], poly), a[k..k + 4], b[k..k + 4], poly);
      assert a == a[..k] + a[k..k + 4] + a[k + 4..];
      assert b == b[..k] + b[k..k + 4] + b[k + 4..];
    }
  }

  lemma SameFour(crc: bv32, a: seq<byte>, b: seq<byte>, poly: bv32)
    requires poly & 0x8000_0000 != 0 && |a| == 4 && |b| == 4
    requires Feed4(crc, Word(a[0]), Word(a[1]), Word(a[2]), Word(a[3]), poly)
          == Feed4(crc, Word(b[0]), Word(b[1]), Word(b[2]), Word(b[3]), poly)
    ensures a == b
  {
    forall i | 0 <= i < 4
      ensures Word(a[i]) & 0xff == Word(a[i]) && Word(b[i]) & 0xff == Word(b[i])
    {
      OneByte(a[i]);
      OneByte(b[i]);
    }
    SameWords(crc, Word(a[0]), Word(a[1]), Word(a[2]), Word(a[3]), Word(b[0]), Word(b[1]), Word(b[2]), Word(b[3]), poly);
    WordInjective(a[0], b[0]);
    WordInjective(a[1], b[1]);
    WordInjective(a[2], b[2]);
    WordInjective(a[3], b[3]);
  }

  lemma SameWords(c: bv32, x0: bv32, x1: bv32, x2: bv32, x3: bv32, y0: bv32, y1: bv32, y2: bv32, y3: bv32, poly: bv32)
    requires poly & 0x8000_0000 != 0 && Feed4(c, x0, x1, x2, x3, poly) == Feed4(c, y0, y1, y2, y3, poly)
    requires x0 & 0xff == x0 && x1 & 0xff == x1 && x2 & 0xff == x2 && x3 & 0xff == x3
    requires y0 & 0xff == y0 && y1 & 0xff == y1 && y2 & 0xff == y2 && y3 & 0xff == y3
    ensures x0 == y0 && x1 == y1 && x2 == y2 && x3 == y3
  {
    Feed4AtOnce(c, x0, x1, x2, x3, poly);
    Feed4AtOnce(c, y0, y1, y2, y3, poly);
    StepsInjective(Xor(Xor(Xor(Xor(c, x0), x1 << 8), x2 << 16), x3 << 24), Xor(Xor(Xor(Xor(c, y0), y1 << 8), y2 << 16), y3 << 24), 32, poly);
    PackedInjective(c, x0, x1, x2, x3, y0, y1, y2, y3);
  }

  lemma SwapInjective(a: bv32, b: bv32)
    requires Swap(!a) == Swap(!b)
    ensures a == b
  {
  }

  lemma ZeroedAlike(a: seq<byte>, b: seq<byte>, k: nat)
    requires HEADER_SIZE <= |a| == |b| && k + 4 <= |a| && (k + 4 <= 8 || 12 <= k)
    requires a[..k] == b[..k] && a[k + 4..] == b[k + 4..]
    ensures Zeroed(a)[..k] == Zeroed(b)[..k] && Zeroed(a)[k + 4..] == Zeroed(b)[k + 4..]
    ensures Zeroed(a) == Zeroed(b) ==> a == b
  {
    forall i | 0 <= i < |a| && !(k <= i < k + 4)
      ensures a[i] == b[i] && Zeroed(a)[i] == Zeroed(b)[i]
    {
      if i < k {
        assert a[i] == a[..k][i] == b[..k][i];
      } else {
        assert a[i] == a[k + 4..][i - k - 4] == b[k + 4..][i - k - 4];
      }
    }
    if Zeroed(a) == Zeroed(b) {
      forall i | k <= i < k + 4
        ensures a[i] == b[i]
      {
        assert Zeroed(a)[i] == a[i] && Zeroed(b)[i] == b[i];
      }
      assert a == b;
    }
  }

  lemma CrcOf(packet: seq<byte>, remainder: bv32)
    requires HEADER_SIZE <= |packet| && remainder == Feed(ALL_ONES, Zeroed(packet), CASTAGNOLI)
    ensures SctpCrc(packet) == Swap(!remainder)
  {
  }

  lemma SameRemainder(a: seq<byte>, b: seq<byte>, x: bv32, y: bv32)
    requires HEADER_SIZE <= |a| && HEADER_SIZE <= |b| && SctpCrc(a) == SctpCrc(b)
    requires x == Feed(ALL_ONES, Zeroed(a), CASTAGNOLI) && y == Feed(ALL_ONES, Zeroed(b), CASTAGNOLI)
    ensures x == y
  {
    CrcOf(a, x);
    CrcOf(b, y);
    SwapInjective(x, y);
  }

  lemma CastagnoliIsOdd()
    ensures CASTAGNOLI & 0x8000_0000 != 0
  {
  }

  /** So crc32_sctp tells two packets apart that differ, outside the checksum field, within four
      consecutive bytes. */
  lemma SctpBurstDetected(a: seq<byte>, b: seq<byte>, k: nat)
    requires HEADER_SIZE <= |a| == |b| && k + 4 <= |a| && (k + 4 <= 8 || 12 <= k)
    requires a[..k] == b[..k] && a[k + 4..] == b[k + 4..]
    ensures SctpCrc(a) == SctpCrc(b) <==> a == b
  {
    if SctpCrc(a) == SctpCrc(b) {
      SameRemainder(a, b, Feed(ALL_ONES, Zeroed(a), CASTAGNOLI), Feed(ALL_ONES, Zeroed(b), CASTAGNOLI));
      CastagnoliIsOdd();
      ZeroedAlike(a, b, k);
      BurstDetected(ALL_ONES, Zeroed(a), Zeroed(b), k, CASTAGNOLI);
    }
  }

  // --- checksums as bytes ---

  function ByteOf(x: bv32): byte {
    (x & 0xff) as bv8 as int
  }

  // What set_be_uint32 writes.
  function WordBytes(x: bv32): (b: seq<byte>)
    ensures |b| == 4
  {
    [ByteOf(x >> 24), ByteOf(x >> 16), ByteOf(x >> 8), ByteOf(x)]
  }

  lemma SwapShifts(x: bv32)
    ensures (Swap(x) >> 24) & 0xff == x & 0xff
    ensures (Swap(x) >> 16) & 0xff == (x >> 8) & 0xff
    ensures (Swap(x) >> 8) & 0xff == (x >> 16) & 0xff
    ensures Swap(x) & 0xff == (x >> 24) & 0xff
  {
  }

  /** The last lines of crc32_sctp reverse the bytes, so that set_be_uint32 stores the remainder
      least significant byte first. */
  lemma StoredLowByteFirst(x: bv32)
    ensures WordBytes(Swap(x)) == [ByteOf(x), ByteOf(x >> 8), ByteOf(x >> 16), ByteOf(x >> 24)]
  {
    SwapShifts(x);
  }
}
