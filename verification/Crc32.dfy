/** crc32.c: the table-driven CRC equals bit-by-bit division, most significant bit first, by the
    polynomial 0x04C11DB7; and the CRC of a memory region computed block by block is the CRC of the
    region. */
module Crc32 {
  const POLYNOMIAL: bv32 := 0x04C1_1DB7
  const TOP: bv32 := 0x8000_0000

  function Xor(x: bv32, y: bv32): bv32 {
    x ^ y
  }

  function Shift(x: bv32): bv32 {
    x << 1
  }

  predicate Top(x: bv32) {
    x & TOP != 0
  }

  /** A byte at the top of a word. */
  function AtTop(b: bv32): bv32 {
    b << 24
  }

  // ----- the reference: one message bit at a time

  /** Long division: the top bit that is shifted out, together with the next message bit, decides
      whether the polynomial is subtracted. */
  function FeedBit(crc: bv32, bit: bool): bv32 {
    if Top(crc) != bit then Xor(Shift(crc), POLYNOMIAL) else Shift(crc)
  }

  /** The eight bits of a byte, given at the top of a word, from the most significant on. */
  function FeedBits(crc: bv32, bits: bv32, n: nat): bv32
    decreases n
  {
    if n == 0 then crc else FeedBits(FeedBit(crc, Top(bits)), Shift(bits), n - 1)
  }

  function FeedByte(crc: bv32, byte: bv8): bv32 {
    FeedBits(crc, AtTop(byte as bv32), 8)
  }

  function Divided(crc: bv32, data: seq<bv8>): bv32 {
    if data == [] then crc else FeedByte(Divided(crc, data[..|data| - 1]), data[|data| - 1])
  }

  // ----- the table

  function Row0(b: bv32): bv32 {
    if b == 0x00 then 0x00000000 else if b == 0x01 then 0x04c11db7
    else if b == 0x02 then 0x09823b6e else if b == 0x03 then 0x0d4326d9
    else if b == 0x04 then 0x130476dc else if b == 0x05 then 0x17c56b6b
    else if b == 0x06 then 0x1a864db2 else if b == 0x07 then 0x1e475005
    else if b == 0x08 then 0x2608edb8 else if b == 0x09 then 0x22c9f00f
    else if b == 0x0a then 0x2f8ad6d6 else if b == 0x0b then 0x2b4bcb61
    else if b == 0x0c then 0x350c9b64 else if b == 0x0d then 0x31cd86d3
    else if b == 0x0e then 0x3c8ea00a else 0x384fbdbd
  }

  function Row1(b: bv32): bv32 {
    if b == 0x10 then 0x4c11db70 else if b == 0x11 then 0x48d0c6c7
    else if b == 0x12 then 0x4593e01e else if b == 0x13 then 0x4152fda9
    else if b == 0x14 then 0x5f15adac else if b == 0x15 then 0x5bd4b01b
    else if b == 0x16 then 0x569796c2 else if b == 0x17 then 0x52568b75
    else if b == 0x18 then 0x6a1936c8 else if b == 0x19 then 0x6ed82b7f
    else if b == 0x1a then 0x639b0da6 else if b == 0x1b then 0x675a1011
    else if b == 0x1c then 0x791d4014 else if b == 0x1d then 0x7ddc5da3
    else if b == 0x1e then 0x709f7b7a else 0x745e66cd
  }

  function Row2(b: bv32): bv32 {
    if b == 0x20 then 0x9823b6e0 else if b == 0x21 then 0x9ce2ab57
    else if b == 0x22 then 0x91a18d8e else if b == 0x23 then 0x95609039
    else if b == 0x24 then 0x8b27c03c else if b == 0x25 then 0x8fe6dd8b
    else if b == 0x26 then 0x82a5fb52 else if b == 0x27 then 0x8664e6e5
    else if b == 0x28 then 0xbe2b5b58 else if b == 0x29 then 0xbaea46ef
    else if b == 0x2a then 0xb7a96036 else if b == 0x2b then 0xb3687d81
    else if b == 0x2c then 0xad2f2d84 else if b == 0x2d then 0xa9ee3033
    else if b == 0x2e then 0xa4ad16ea else 0xa06c0b5d
  }

  function Row3(b: bv32): bv32 {
    if b == 0x30 then 0xd4326d90 else if b == 0x31 then 0xd0f37027
    else if b == 0x32 then 0xddb056fe else if b == 0x33 then 0xd9714b49
    else if b == 0x34 then 0xc7361b4c else if b == 0x35 then 0xc3f706fb
    else if b == 0x36 then 0xceb42022 else if b == 0x37 then 0xca753d95
    else if b == 0x38 then 0xf23a8028 else if b == 0x39 then 0xf6fb9d9f
    else if b == 0x3a then 0xfbb8bb46 else if b == 0x3b then 0xff79a6f1
    else if b == 0x3c then 0xe13ef6f4 else if b == 0x3d then 0xe5ffeb43
    else if b == 0x3e then 0xe8bccd9a else 0xec7dd02d
  }

  function Row4(b: bv32): bv32 {
    if b == 0x40 then 0x34867077 else if b == 0x41 then 0x30476dc0
    else if b == 0x42 then 0x3d044b19 else if b == 0x43 then 0x39c556ae
    else if b == 0x44 then 0x278206ab else if b == 0x45 then 0x23431b1c
    else if b == 0x46 then 0x2e003dc5 else if b == 0x47 then 0x2ac12072
    else if b == 0x48 then 0x128e9dcf else if b == 0x49 then 0x164f8078
    else if b == 0x4a then 0x1b0ca6a1 else if b == 0x4b then 0x1fcdbb16
    else if b == 0x4c then 0x018aeb13 else if b == 0x4d then 0x054bf6a4
    else if b == 0x4e then 0x0808d07d else 0x0cc9cdca
  }

  function Row5(b: bv32): bv32 {
    if b == 0x50 then 0x7897ab07 else if b == 0x51 then 0x7c56b6b0
    else if b == 0x52 then 0x71159069 else if b == 0x53 then 0x75d48dde
    else if b == 0x54 then 0x6b93dddb else if b == 0x55 then 0x6f52c06c
    else if b == 0x56 then 0x6211e6b5 else if b == 0x57 then 0x66d0fb02
    else if b == 0x58 then 0x5e9f46bf else if b == 0x59 then 0x5a5e5b08
    else if b == 0x5a then 0x571d7dd1 else if b == 0x5b then 0x53dc6066
    else if b == 0x5c then 0x4d9b3063 else if b == 0x5d then 0x495a2dd4
    else if b == 0x5e then 0x44190b0d else 0x40d816ba
  }

  function Row6(b: bv32): bv32 {
    if b == 0x60 then 0xaca5c697 else if b == 0x61 then 0xa864db20
    else if b == 0x62 then 0xa527fdf9 else if b == 0x63 then 0xa1e6e04e
    else if b == 0x64 then 0xbfa1b04b else if b == 0x65 then 0xbb60adfc
    else if b == 0x66 then 0xb6238b25 else if b == 0x67 then 0xb2e29692
    else if b == 0x68 then 0x8aad2b2f else if b == 0x69 then 0x8e6c3698
    else if b == 0x6a then 0x832f1041 else if b == 0x6b then 0x87ee0df6
    else if b == 0x6c then 0x99a95df3 else if b == 0x6d then 0x9d684044
    else if b == 0x6e then 0x902b669d else 0x94ea7b2a
  }

  function Row7(b: bv32): bv32 {
    if b == 0x70 then 0xe0b41de7 else if b == 0x71 then 0xe4750050
    else if b == 0x72 then 0xe9362689 else if b == 0x73 then 0xedf73b3e
    else if b == 0x74 then 0xf3b06b3b else if b == 0x75 then 0xf771768c
    else if b == 0x76 then 0xfa325055 else if b == 0x77 then 0xfef34de2
    else if b == 0x78 then 0xc6bcf05f else if b == 0x79 then 0xc27dede8
    else if b == 0x7a then 0xcf3ecb31 else if b == 0x7b then 0xcbffd686
    else if b == 0x7c then 0xd5b88683 else if b == 0x7d then 0xd1799b34
    else if b == 0x7e then 0xdc3abded else 0xd8fba05a
  }

  function Row8(b: bv32): bv32 {
    if b == 0x80 then 0x690ce0ee else if b == 0x81 then 0x6dcdfd59
    else if b == 0x82 then 0x608edb80 else if b == 0x83 then 0x644fc637
    else if b == 0x84 then 0x7a089632 else if b == 0x85 then 0x7ec98b85
    else if b == 0x86 then 0x738aad5c else if b == 0x87 then 0x774bb0eb
    else if b == 0x88 then 0x4f040d56 else if b == 0x89 then 0x4bc510e1
    else if b == 0x8a then 0x46863638 else if b == 0x8b then 0x42472b8f
    else if b == 0x8c then 0x5c007b8a else if b == 0x8d then 0x58c1663d
    else if b == 0x8e then 0x558240e4 else 0x51435d53
  }

  function Row9(b: bv32): bv32 {
    if b == 0x90 then 0x251d3b9e else if b == 0x91 then 0x21dc2629
    else if b == 0x92 then 0x2c9f00f0 else if b == 0x93 then 0x285e1d47
    else if b == 0x94 then 0x36194d42 else if b == 0x95 then 0x32d850f5
    else if b == 0x96 then 0x3f9b762c else if b == 0x97 then 0x3b5a6b9b
    else if b == 0x98 then 0x0315d626 else if b == 0x99 then 0x07d4cb91
    else if b == 0x9a then 0x0a97ed48 else if b == 0x9b then 0x0e56f0ff
    else if b == 0x9c then 0x1011a0fa else if b == 0x9d then 0x14d0bd4d
    else if b == 0x9e then 0x19939b94 else 0x1d528623
  }

  function RowA(b: bv32): bv32 {
    if b == 0xa0 then 0xf12f560e else if b == 0xa1 then 0xf5ee4bb9
    else if b == 0xa2 then 0xf8ad6d60 else if b == 0xa3 then 0xfc6c70d7
    else if b == 0xa4 then 0xe22b20d2 else if b == 0xa5 then 0xe6ea3d65
    else if b == 0xa6 then 0xeba91bbc else if b == 0xa7 then 0xef68060b
    else if b == 0xa8 then 0xd727bbb6 else if b == 0xa9 then 0xd3e6a601
    else if b == 0xaa then 0xdea580d8 else if b == 0xab then 0xda649d6f
    else if b == 0xac then 0xc423cd6a else if b == 0xad then 0xc0e2d0dd
    else if b == 0xae then 0xcda1f604 else 0xc960ebb3
  }

  function RowB(b: bv32): bv32 {
    if b == 0xb0 then 0xbd3e8d7e else if b == 0xb1 then 0xb9ff90c9
    else if b == 0xb2 then 0xb4bcb610 else if b == 0xb3 then 0xb07daba7
    else if b == 0xb4 then 0xae3afba2 else if b == 0xb5 then 0xaafbe615
    else if b == 0xb6 then 0xa7b8c0cc else if b == 0xb7 then 0xa379dd7b
    else if b == 0xb8 then 0x9b3660c6 else if b == 0xb9 then 0x9ff77d71
    else if b == 0xba then 0x92b45ba8 else if b == 0xbb then 0x9675461f
    else if b == 0xbc then 0x8832161a else if b == 0xbd then 0x8cf30bad
    else if b == 0xbe then 0x81b02d74 else 0x857130c3
  }

  function RowC(b: bv32): bv32 {
    if b == 0xc0 then 0x5d8a9099 else if b == 0xc1 then 0x594b8d2e
    else if b == 0xc2 then 0x5408abf7 else if b == 0xc3 then 0x50c9b640
    else if b == 0xc4 then 0x4e8ee645 else if b == 0xc5 then 0x4a4ffbf2
    else if b == 0xc6 then 0x470cdd2b else if b == 0xc7 then 0x43cdc09c
    else if b == 0xc8 then 0x7b827d21 else if b == 0xc9 then 0x7f436096
    else if b == 0xca then 0x7200464f else if b == 0xcb then 0x76c15bf8
    else if b == 0xcc then 0x68860bfd else if b == 0xcd then 0x6c47164a
    else if b == 0xce then 0x61043093 else 0x65c52d24
  }

  function RowD(b: bv32): bv32 {
    if b == 0xd0 then 0x119b4be9 else if b == 0xd1 then 0x155a565e
    else if b == 0xd2 then 0x18197087 else if b == 0xd3 then 0x1cd86d30
    else if b == 0xd4 then 0x029f3d35 else if b == 0xd5 then 0x065e2082
    else if b == 0xd6 then 0x0b1d065b else if b == 0xd7 then 0x0fdc1bec
    else if b == 0xd8 then 0x3793a651 else if b == 0xd9 then 0x3352bbe6
    else if b == 0xda then 0x3e119d3f else if b == 0xdb then 0x3ad08088
    else if b == 0xdc then 0x2497d08d else if b == 0xdd then 0x2056cd3a
    else if b == 0xde then 0x2d15ebe3 else 0x29d4f654
  }

  function RowE(b: bv32): bv32 {
    if b == 0xe0 then 0xc5a92679 else if b == 0xe1 then 0xc1683bce
    else if b == 0xe2 then 0xcc2b1d17 else if b == 0xe3 then 0xc8ea00a0
    else if b == 0xe4 then 0xd6ad50a5 else if b == 0xe5 then 0xd26c4d12
    else if b == 0xe6 then 0xdf2f6bcb else if b == 0xe7 then 0xdbee767c
    else if b == 0xe8 then 0xe3a1cbc1 else if b == 0xe9 then 0xe760d676
    else if b == 0xea then 0xea23f0af else if b == 0xeb then 0xeee2ed18
    else if b == 0xec then 0xf0a5bd1d else if b == 0xed then 0xf464a0aa
    else if b == 0xee then 0xf9278673 else 0xfde69bc4
  }

  function RowF(b: bv32): bv32 {
    if b == 0xf0 then 0x89b8fd09 else if b == 0xf1 then 0x8d79e0be
    else if b == 0xf2 then 0x803ac667 else if b == 0xf3 then 0x84fbdbd0
    else if b == 0xf4 then 0x9abc8bd5 else if b == 0xf5 then 0x9e7d9662
    else if b == 0xf6 then 0x933eb0bb else if b == 0xf7 then 0x97ffad0c
    else if b == 0xf8 then 0xafb010b1 else if b == 0xf9 then 0xab710d06
    else if b == 0xfa then 0xa6322bdf else if b == 0xfb then 0xa2f33668
    else if b == 0xfc then 0xbcb4666d else if b == 0xfd then 0xb8757bda
    else if b == 0xfe then 0xb5365d03 else 0xb1f740b4
  }

  /** `crc32_tab`, sixteen entries to a row. */
  function Table(b: bv32): bv32
    requires b < 0x100
  {
    if b < 0x10 then Row0(b)
    else if b < 0x20 then Row1(b)
    else if b < 0x30 then Row2(b)
    else if b < 0x40 then Row3(b)
    else if b < 0x50 then Row4(b)
    else if b < 0x60 then Row5(b)
    else if b < 0x70 then Row6(b)
    else if b < 0x80 then Row7(b)
    else if b < 0x90 then Row8(b)
    else if b < 0xa0 then Row9(b)
    else if b < 0xb0 then RowA(b)
    else if b < 0xc0 then RowB(b)
    else if b < 0xd0 then RowC(b)
    else if b < 0xe0 then RowD(b)
    else if b < 0xf0 then RowE(b)
    else RowF(b)
  }

  // ----- division without message bits

  function Step(c: bv32): bv32 {
    if Top(c) then Xor(Shift(c), POLYNOMIAL) else Shift(c)
  }

  function Step8(c: bv32): bv32 {
    Step(Step(Step(Step(Step(Step(Step(Step(c))))))))
  }

  lemma Row0Divides(b: bv32)
    requires 0x00 <= b < 0x10
    ensures Row0(b) == Step8(AtTop(b))
  {
  }

  lemma Row1Divides(b: bv32)
    requires 0x10 <= b < 0x20
    ensures Row1(b) == Step8(AtTop(b))
  {
  }

  lemma Row2Divides(b: bv32)
    requires 0x20 <= b < 0x30
    ensures Row2(b) == Step8(AtTop(b))
  {
  }

  lemma Row3Divides(b: bv32)
    requires 0x30 <= b < 0x40
    ensures Row3(b) == Step8(AtTop(b))
  {
  }

  lemma Row4Divides(b: bv32)
    requires 0x40 <= b < 0x50
    ensures Row4(b) == Step8(AtTop(b))
  {
  }

  lemma Row5Divides(b: bv32)
    requires 0x50 <= b < 0x60
    ensures Row5(b) == Step8(AtTop(b))
  {
  }

  lemma Row6Divides(b: bv32)
    requires 0x60 <= b < 0x70
    ensures Row6(b) == Step8(AtTop(b))
  {
  }

  lemma Row7Divides(b: bv32)
    requires 0x70 <= b < 0x80
    ensures Row7(b) == Step8(AtTop(b))
  {
  }

  lemma Row8Divides(b: bv32)
    requires 0x80 <= b < 0x90
    ensures Row8(b) == Step8(AtTop(b))
  {
  }

  lemma Row9Divides(b: bv32)
    requires 0x90 <= b < 0xa0
    ensures Row9(b) == Step8(AtTop(b))
  {
  }

  lemma RowADivides(b: bv32)
    requires 0xa0 <= b < 0xb0
    ensures RowA(b) == Step8(AtTop(b))
  {
  }

  lemma RowBDivides(b: bv32)
    requires 0xb0 <= b < 0xc0
    ensures RowB(b) == Step8(AtTop(b))
  {
  }

  lemma RowCDivides(b: bv32)
    requires 0xc0 <= b < 0xd0
    ensures RowC(b) == Step8(AtTop(b))
  {
  }

  lemma RowDDivides(b: bv32)
    requires 0xd0 <= b < 0xe0
    ensures RowD(b) == Step8(AtTop(b))
  {
  }

  lemma RowEDivides(b: bv32)
    requires 0xe0 <= b < 0xf0
    ensures RowE(b) == Step8(AtTop(b))
  {
  }

  lemma RowFDivides(b: bv32)
    requires 0xf0 <= b < 0x100
    ensures RowF(b) == Step8(AtTop(b))
  {
  }

  /** Every entry of the table is what eight divisions make of its index. */
  lemma TableDivides(b: bv32)
    requires b < 0x100
    ensures Table(b) == Step8(AtTop(b))
  {
    hide Step8, Row0, Row1, Row2, Row3, Row4, Row5, Row6, Row7, Row8, Row9, RowA, RowB, RowC, RowD, RowE, RowF;
    if b < 0x10 {
      Row0Divides(b);
    } else if b < 0x20 {
      Row1Divides(b);
    } else if b < 0x30 {
      Row2Divides(b);
    } else if b < 0x40 {
      Row3Divides(b);
    } else if b < 0x50 {
      Row4Divides(b);
    } else if b < 0x60 {
      Row5Divides(b);
    } else if b < 0x70 {
      Row6Divides(b);
    } else if b < 0x80 {
      Row7Divides(b);
    } else if b < 0x90 {
      Row8Divides(b);
    } else if b < 0xa0 {
      Row9Divides(b);
    } else if b < 0xb0 {
      RowADivides(b);
    } else if b < 0xc0 {
      RowBDivides(b);
    } else if b < 0xd0 {
      RowCDivides(b);
    } else if b < 0xe0 {
      RowDDivides(b);
    } else if b < 0xf0 {
      RowEDivides(b);
    } else {
      RowFDivides(b);
    }
  }

  // ----- division is linear

  /** What is subtracted when a word is shifted. */
  function Carry(c: bv32): bv32 {
    if Top(c) then POLYNOMIAL else 0
  }

  lemma StepForm(c: bv32)
    ensures Step(c) == Xor(Shift(c), Carry(c))
  {
    hide Xor, Shift, Top;
    XorSwaps(Shift(c), 0, 0, 0);
  }

  lemma ShiftXor(x: bv32, y: bv32)
    ensures Shift(Xor(x, y)) == Xor(Shift(x), Shift(y))
  {
  }

  lemma XorAssociates(a: bv32, b: bv32, c: bv32)
    ensures Xor(Xor(a, b), c) == Xor(a, Xor(b, c))
  {
  }

  lemma XorCommutes(a: bv32, b: bv32)
    ensures Xor(a, b) == Xor(b, a)
  {
  }

  lemma XorNone(a: bv32)
    ensures Xor(a, 0) == a
  {
  }

  lemma XorSwaps(a: bv32, b: bv32, c: bv32, d: bv32)
    ensures Xor(Xor(a, b), Xor(c, d)) == Xor(Xor(a, c), Xor(b, d))
    ensures Xor(Xor(a, b), c) == Xor(Xor(a, c), b) && Xor(a, 0) == a
  {
    hide Xor;
    XorNone(a);
    XorAssociates(a, b, c);
    XorAssociates(a, c, b);
    XorCommutes(b, c);
    XorAssociates(a, b, Xor(c, d));
    XorAssociates(b, c, d);
    XorAssociates(c, b, d);
    XorAssociates(a, c, Xor(b, d));
  }

  lemma TopOfXor(x: bv32, y: bv32)
    ensures Top(Xor(x, y)) <==> Top(x) != Top(y)
  {
  }

  lemma CarryXor(x: bv32, y: bv32)
    ensures Carry(Xor(x, y)) == Xor(Carry(x), Carry(y))
    ensures Carry(Xor(x, y)) == if Top(x) != Top(y) then POLYNOMIAL else 0
  {
    hide Xor, Top;
    TopOfXor(x, y);
    XorPolynomial();
  }

  lemma XorPolynomial()
    ensures Xor(POLYNOMIAL, POLYNOMIAL) == 0 && Xor(POLYNOMIAL, 0) == POLYNOMIAL && Xor(0, POLYNOMIAL) == POLYNOMIAL && Xor(0, 0) == 0
  {
  }

  lemma StepXor(x: bv32, y: bv32)
    ensures Step(Xor(x, y)) == Xor(Step(x), Step(y))
  {
    hide Step, Xor, Shift, Carry;
    StepForm(x);
    StepForm(y);
    StepForm(Xor(x, y));
    ShiftXor(x, y);
    CarryXor(x, y);
    XorSwaps(Shift(x), Shift(y), Carry(x), Carry(y));
  }

  lemma Step8Xor(x: bv32, y: bv32)
    ensures Step8(Xor(x, y)) == Xor(Step8(x), Step8(y))
  {
    hide Step, Xor;
    StepXor(x, y);
    StepXor(Step(x), Step(y));
    StepXor(Step(Step(x)), Step(Step(y)));
    StepXor(Step(Step(Step(x))), Step(Step(Step(y))));
    StepXor(Step(Step(Step(Step(x)))), Step(Step(Step(Step(y)))));
    StepXor(Step(Step(Step(Step(Step(x))))), Step(Step(Step(Step(Step(y))))));
    StepXor(Step(Step(Step(Step(Step(Step(x)))))), Step(Step(Step(Step(Step(Step(y)))))));
    StepXor(Step(Step(Step(Step(Step(Step(Step(x))))))), Step(Step(Step(Step(Step(Step(Step(y))))))));
  }

  // ----- the message can be added to the register first

  function Steps(c: bv32, n: nat): bv32
    decreases n
  {
    if n == 0 then c else Steps(Step(c), n - 1)
  }

  function Shifts(c: bv32, n: nat): bv32
    decreases n
  {
    if n == 0 then c else Shifts(Shift(c), n - 1)
  }

  lemma FeedForm(crc: bv32, bits: bv32)
    ensures FeedBit(crc, Top(bits)) == Xor(Shift(crc), Carry(Xor(crc, bits)))
  {
    hide Xor, Shift, Top, Carry;
    CarryXor(crc, bits);
    XorSwaps(Shift(crc), 0, 0, 0);
  }

  /** Feeding bits one by one is dividing the register with all of them added. */
  lemma {:induction false} FeedIsSteps(crc: bv32, bits: bv32, n: nat)
    ensures Steps(Xor(crc, bits), n) == Xor(FeedBits(crc, bits, n), Shifts(bits, n))
    decreases n
  {
    hide Step, Xor, Shift, Carry, FeedBit;
    if n != 0 {
      FeedForm(crc, bits);
      StepForm(Xor(crc, bits));
      ShiftXor(crc, bits);
      XorSwaps(Shift(crc), Shift(bits), Carry(Xor(crc, bits)), 0);
      FeedIsSteps(FeedBit(crc, Top(bits)), Shift(bits), n - 1);
    }
  }

  lemma Unrolled(c: bv32)
    ensures Steps(c, 8) == Step8(c) && Shifts(c, 8) == Shift(Shift(Shift(Shift(Shift(Shift(Shift(Shift(c))))))))
  {
    hide Step, Shift;
    assert Steps(c, 8) == Steps(Step(Step(c)), 6) == Steps(Step(Step(Step(Step(c)))), 4) ==
           Steps(Step(Step(Step(Step(Step(Step(c)))))), 2) == Steps(Step8(c), 0);
    assert Shifts(c, 8) == Shifts(Shift(Shift(c)), 6) == Shifts(Shift(Shift(Shift(Shift(c)))), 4) ==
           Shifts(Shift(Shift(Shift(Shift(Shift(Shift(c)))))), 2);
  }

  lemma ByteShiftsOut(b: bv32)
    requires b < 0x100
    ensures Shift(Shift(Shift(Shift(Shift(Shift(Shift(Shift(AtTop(b))))))))) == 0
  {
  }

  lemma FeedByteIsStep8(crc: bv32, byte: bv8)
    ensures FeedByte(crc, byte) == Step8(Xor(crc, AtTop(byte as bv32)))
  {
    hide Step, Xor, Shift, Step8, AtTop;
    ByteFits(byte);
    ByteShiftsOut(byte as bv32);
    FeedIsSteps(crc, AtTop(byte as bv32), 8);
    Unrolled(Xor(crc, AtTop(byte as bv32)));
    Unrolled(AtTop(byte as bv32));
    XorSwaps(FeedBits(crc, AtTop(byte as bv32), 8), 0, 0, 0);
  }

  // ----- one table look-up is eight divisions

  function TopByte(crc: bv32): bv32 {
    crc >> 24
  }

  function LowByte(x: bv32): bv32 {
    x & 0xFF
  }

  /** The index `((crc >> 24) ^ *data) & 0xFF`. */
  function Index(crc: bv32, b: bv32): bv32 {
    LowByte(Xor(TopByte(crc), b))
  }

  lemma ByteBounds(x: bv32)
    ensures LowByte(x) < 0x100 && TopByte(x) < 0x100
  {
  }

  lemma BytesXor(x: bv32, y: bv32)
    requires x < 0x100 && y < 0x100
    ensures LowByte(Xor(x, y)) == Xor(x, y)
  {
  }

  /** `crc << 8`, and the part of the register that is kept. */
  function Out(crc: bv32): bv32 {
    crc << 8
  }

  function Low(crc: bv32): bv32 {
    crc & 0x00FF_FFFF
  }

  function TableStep(crc: bv32, byte: bv8): bv32 {
    ByteBounds(Xor(TopByte(crc), byte as bv32));
    Xor(Table(Index(crc, byte as bv32)), Out(crc))
  }

  lemma WordParts(crc: bv32)
    ensures crc == Xor(AtTop(TopByte(crc)), Low(crc))
  {
  }

  lemma AtTopXor(x: bv32, y: bv32)
    ensures AtTop(Xor(x, y)) == Xor(AtTop(x), AtTop(y))
  {
  }

  lemma RegisterSplits(crc: bv32, b: bv32)
    requires b < 0x100
    ensures Xor(crc, AtTop(b)) == Xor(AtTop(Index(crc, b)), Low(crc))
  {
    hide Xor, AtTop, TopByte, LowByte, Low;
    WordParts(crc);
    ByteBounds(crc);
    BytesXor(TopByte(crc), b);
    AtTopXor(TopByte(crc), b);
    XorSwaps(AtTop(TopByte(crc)), Low(crc), AtTop(b), 0);
  }

  lemma LowBitsOnlyShift(c: bv32)
    ensures Step8(Low(c)) == Out(c)
  {
    hide Shift, Top, Low, Out, Xor;
    NoCarries(c);
    ShiftedOut(c);
  }

  lemma NoCarries(c: bv32)
    ensures var x := Low(c);
            && !Top(x) && !Top(Shift(x)) && !Top(Shift(Shift(x))) && !Top(Shift(Shift(Shift(x))))
            && !Top(Shift(Shift(Shift(Shift(x))))) && !Top(Shift(Shift(Shift(Shift(Shift(x))))))
            && !Top(Shift(Shift(Shift(Shift(Shift(Shift(x))))))) && !Top(Shift(Shift(Shift(Shift(Shift(Shift(Shift(x))))))))
  {
  }

  lemma ShiftedOut(c: bv32)
    ensures Shift(Shift(Shift(Shift(Shift(Shift(Shift(Shift(Low(c))))))))) == Out(c)
  {
  }

  lemma IndexFits(crc: bv32, b: bv32)
    ensures Index(crc, b) < 0x100
  {
    hide TopByte, LowByte, Xor;
    ByteBounds(Xor(TopByte(crc), b));
  }

  lemma ByteFits(byte: bv8)
    ensures byte as bv32 < 0x100
  {
  }

  /** For every register and every byte. */
  lemma TableStepIsDivision(crc: bv32, byte: bv8)
    ensures TableStep(crc, byte) == FeedByte(crc, byte)
  {
    hide Step8, Table, FeedBits, Xor, AtTop, Low, Out, Index;
    ByteFits(byte);
    var b := byte as bv32;
    var i := Index(crc, b);
    IndexFits(crc, b);
    RegisterSplits(crc, b);
    FeedByteIsStep8(crc, byte);
    Step8Xor(AtTop(i), Low(crc));
    TableDivides(i);
    LowBitsOnlyShift(crc);
  }

  // ----- whole messages

  function TableCrc(crc: bv32, data: seq<bv8>): bv32 {
    if data == [] then crc else TableStep(TableCrc(crc, data[..|data| - 1]), data[|data| - 1])
  }

  /** The table-driven CRC of every byte sequence from every seed is its bit-by-bit division. */
  lemma {:induction false} TableCrcIsDivision(crc: bv32, data: seq<bv8>)
    ensures TableCrc(crc, data) == Divided(crc, data)
  {
    hide TableStep, FeedByte;
    if data != [] {
      TableCrcIsDivision(crc, data[..|data| - 1]);
      TableStepIsDivision(Divided(crc, data[..|data| - 1]), data[|data| - 1]);
    }
  }

  /** A CRC can be carried from one piece of a message to the next. */
  lemma {:induction false} DividedInPieces(crc: bv32, first: seq<bv8>, second: seq<bv8>)
    ensures Divided(crc, first + second) == Divided(Divided(crc, first), second)
    decreases |second|
  {
    hide FeedByte;
    if second == [] {
      assert first + second == first;
    } else {
      var init := second[..|second| - 1];
      assert (first + second)[..|first + second| - 1] == first + init;
      DividedInPieces(crc, first, init);
    }
  }

  lemma CrcOfNone(crc: bv32, data: seq<bv8>)
    ensures TableCrc(crc, data[..0]) == crc
  {
    assert data[..0] == [];
  }

  lemma CrcOfOneMore(crc: bv32, data: seq<bv8>, n: nat)
    requires n < |data|
    ensures TableCrc(crc, data[..n + 1]) == TableStep(TableCrc(crc, data[..n]), data[n])
  {
    hide TableStep;
    assert data[..n + 1][..n] == data[..n];
  }

  /** `crc32` */
  method Crc(data: seq<bv8>, len: nat, seed: bv32) returns (crc: bv32)
    requires len <= |data|
    ensures crc == Divided(seed, data[..len])
  {
    hide TableStep, TableCrc, Divided;
    crc := seed;
    var left := len;
    var next := 0;
    CrcOfNone(seed, data);
    while left != 0
      invariant next + left == len
      invariant crc == TableCrc(seed, data[..next])
    {
      left := left - 1;
      CrcOfOneMore(seed, data, next);
      crc := TableStep(crc, data[next]);
      next := next + 1;
    }
    TableCrcIsDivision(seed, data[..len]);
  }

  // ----- a memory region

  const MAX_BLOCK: nat := 2048
  /** Addresses, and lengths, are 32 bits wide. */
  const ADDRESSES: nat := 0x1_0000_0000

  datatype Reply<T> = Failed | Got(value: T)

  /** The `i`-th address of a region. */
  function At(addr: nat, i: nat): nat {
    (addr + i) % ADDRESSES
  }

  lemma AtAdds(addr: nat, d: nat, i: nat)
    ensures At(At(addr, d), i) == At(addr, d + i)
  {
  }

  /** The bytes of a region; the target refuses to read where it has no memory. */
  predicate Readable(memory: map<nat, bv8>, addr: nat, len: nat) {
    forall i :: 0 <= i < len ==> At(addr, i) in memory
  }

  function Region(memory: map<nat, bv8>, addr: nat, len: nat): (r: seq<bv8>)
    requires Readable(memory, addr, len)
    ensures |r| == len
    ensures forall i {:trigger r[i]} :: 0 <= i < len ==> r[i] == memory[At(addr, i)]
  {
    seq(len, i requires 0 <= i < len => memory[At(addr, i)])
  }

  /** `target_mem_block_read` */
  method ReadBlock(memory: map<nat, bv8>, addr: nat, len: nat) returns (block: Reply<seq<bv8>>)
    ensures block == if Readable(memory, addr, len) then Got(Region(memory, addr, len)) else Failed
  {
    hide At;
    var bytes := [];
    while |bytes| < len
      invariant |bytes| <= len && Readable(memory, addr, |bytes|)
      invariant bytes == Region(memory, addr, |bytes|)
    {
      if At(addr, |bytes|) !in memory {
        return Failed;
      }
      bytes := bytes + [memory[At(addr, |bytes|)]];
    }
    block := Got(bytes);
  }

  /** The loop of `gdbserver_doMemCRC`: blocks of at most 2048 bytes, the CRC carried from one to the next
      from the seed 0xFFFFFFFF, give the CRC of the whole region, for every length, even one that runs
      past the last address; it fails exactly when some byte of the region cannot be read. */
  method MemCrc(memory: map<nat, bv8>, addr: nat, len: nat) returns (crc: Reply<bv32>)
    requires addr < ADDRESSES && len < ADDRESSES
    ensures crc == if Readable(memory, addr, len) then Got(Divided(0xFFFF_FFFF, Region(memory, addr, len))) else Failed
  {
    hide Divided, At;
    assert Divided(0xFFFF_FFFF, []) == 0xFFFF_FFFF by { NothingDivided(0xFFFF_FFFF); }
    var register: bv32 := 0xFFFF_FFFF;
    var left: nat := len;
    var next: nat := addr;
    while left != 0
      invariant left <= len
      invariant left != 0 ==> forall i {:trigger At(next, i)} :: 0 <= i < left ==> At(next, i) == At(addr, len - left + i)
      invariant Readable(memory, addr, len - left)
      invariant register == Divided(0xFFFF_FFFF, Region(memory, addr, len - left))
    {
      var size := if MAX_BLOCK < left then MAX_BLOCK else left;
      var block := ReadBlock(memory, next, size);
      RegionGrows(memory, addr, len - left, next, size);
      if block.Failed? {
        return Failed;
      }
      DividedInPieces(0xFFFF_FFFF, Region(memory, addr, len - left), block.value);
      register := Crc(block.value, size, register);
      assert block.value[..size] == block.value;
      var far := (next + MAX_BLOCK) % ADDRESSES;
      NextBlock(addr, next, far, len - left, left);
      left := left - size;
      next := far;
    }
    crc := Got(register);
  }

  lemma NothingDivided(crc: bv32)
    ensures Divided(crc, []) == crc
  {
  }

  lemma NextBlock(addr: nat, next: nat, far: nat, done: nat, left: nat)
    requires forall i {:trigger At(next, i)} :: 0 <= i < left ==> At(next, i) == At(addr, done + i)
    requires far == (next + MAX_BLOCK) % ADDRESSES
    ensures forall i {:trigger At(far, i)} :: 0 <= i && i + MAX_BLOCK < left ==> At(far, i) == At(addr, done + MAX_BLOCK + i)
  {
    forall i {:trigger At(far, i)} | 0 <= i && i + MAX_BLOCK < left ensures At(far, i) == At(addr, done + MAX_BLOCK + i) {
      AtAdds(next, MAX_BLOCK, i);
      assert At(next, MAX_BLOCK + i) == At(addr, done + (MAX_BLOCK + i));
    }
  }

  lemma RegionGrows(memory: map<nat, bv8>, addr: nat, done: nat, next: nat, more: nat)
    requires Readable(memory, addr, done)
    requires forall i {:trigger At(next, i)} :: 0 <= i < more ==> At(next, i) == At(addr, done + i)
    ensures Readable(memory, next, more) <==> Readable(memory, addr, done + more)
    ensures Readable(memory, next, more) ==>
              Region(memory, addr, done + more) == Region(memory, addr, done) + Region(memory, next, more)
  {
    hide At;
    forall i | done <= i < done + more ensures At(addr, i) == At(next, i - done) {
      assert At(next, i - done) == At(addr, done + (i - done));
    }
  }

  /** A region that runs past the last address goes on from the first. */
  lemma RegionWraps(memory: map<nat, bv8>, addr: nat, len: nat)
    requires addr < ADDRESSES && len < ADDRESSES && ADDRESSES <= addr + len
    ensures var here := ADDRESSES - addr;
            && (Readable(memory, addr, len) <==> Readable(memory, addr, here) && Readable(memory, 0, len - here))
            && (Readable(memory, addr, len) ==> Region(memory, addr, len) == Region(memory, addr, here) + Region(memory, 0, len - here))
  {
    var here := ADDRESSES - addr;
    forall i {:trigger At(0, i)} | 0 <= i < len - here ensures At(0, i) == At(addr, here + i) {
      assert addr + (here + i) == ADDRESSES + i;
    }
    if Readable(memory, addr, len) {
      assert Readable(memory, addr, here);
    }
    if Readable(memory, addr, here) {
      RegionGrows(memory, addr, here, 0, len - here);
    }
  }

  /** A region that does not run past the last address is the bytes from its first address on. */
  lemma RegionIsContiguous(memory: map<nat, bv8>, addr: nat, len: nat)
    requires addr + len <= ADDRESSES
    ensures Readable(memory, addr, len) <==> forall a :: addr <= a < addr + len ==> a in memory
    ensures Readable(memory, addr, len) ==> forall i :: 0 <= i < len ==> Region(memory, addr, len)[i] == memory[addr + i]
  {
    assert forall i :: 0 <= i < len ==> At(addr, i) == addr + i;
    forall a | addr <= a < addr + len && Readable(memory, addr, len) ensures a in memory {
      assert At(addr, a - addr) == a;
    }
  }
}
