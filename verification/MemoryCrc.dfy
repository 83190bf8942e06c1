/** gdbserver.c: the `qCRC` query of the GDB Remote Serial Protocol (GDB manual, section E.4 "General Query
    Packets"): the CRC of a memory region, sent as `C` and eight hex digits. */
module MemoryCrc {
  import opened Crc32
  import opened GdbPacket

  const LETTER_C: bv8 := 0x43

  /** Byte `k` of a word, from the most significant on. */
  function ByteOf(crc: bv32, k: nat): bv8
    requires k < 4
  {
    var b := match k case 0 => (crc >> 24) & 0xFF case 1 => (crc >> 16) & 0xFF case 2 => (crc >> 8) & 0xFF case _ => crc & 0xFF;
    LowByte(b);
    b as bv8
  }

  lemma LowByte(b: bv32)
    ensures b & 0xFF <= 0xFF
    ensures b & 0xFF == b ==> b <= 0xFF
  {
  }

  /** The word with these bytes. */
  function Word(b0: bv8, b1: bv8, b2: bv8, b3: bv8): bv32 {
    ((b0 as bv32) << 24) | ((b1 as bv32) << 16) | ((b2 as bv32) << 8) | (b3 as bv32)
  }

  lemma WordOfBytes(crc: bv32)
    ensures Word(ByteOf(crc, 0), ByteOf(crc, 1), ByteOf(crc, 2), ByteOf(crc, 3)) == crc
  {
  }

  lemma FirstByte(crc: bv32)
    ensures ByteOf(crc, 0) as bv32 == crc >> 24
  {
  }

  lemma SecondByte(crc: bv32)
    ensures ByteOf(crc, 1) as bv32 == (crc << 8) >> 24
  {
  }

  lemma ThirdByte(crc: bv32)
    ensures ByteOf(crc, 2) as bv32 == (crc << 16) >> 24
  {
  }

  lemma LastByte(crc: bv32)
    ensures ByteOf(crc, 3) as bv32 == (crc << 24) >> 24
  {
  }

  /** The most significant byte comes first: byte `k` is what is at the top once `k` bytes are shifted out. */
  lemma MostSignificantFirst(crc: bv32)
    ensures ByteOf(crc, 0) as bv32 == crc >> 24 && ByteOf(crc, 1) as bv32 == (crc << 8) >> 24
    ensures ByteOf(crc, 2) as bv32 == (crc << 16) >> 24 && ByteOf(crc, 3) as bv32 == (crc << 24) >> 24
  {
    hide ByteOf;
    FirstByte(crc);
    SecondByte(crc);
    ThirdByte(crc);
    LastByte(crc);
  }

  /** The reply, as `C%02X%02X%02X%02X` prints it. */
  function Printed(crc: bv32): (r: Bytes)
    ensures |r| == 9
  {
    [LETTER_C,
     HighDigit(ByteOf(crc, 0)), LowDigit(ByteOf(crc, 0)), HighDigit(ByteOf(crc, 1)), LowDigit(ByteOf(crc, 1)),
     HighDigit(ByteOf(crc, 2)), LowDigit(ByteOf(crc, 2)), HighDigit(ByteOf(crc, 3)), LowDigit(ByteOf(crc, 3))]
  }

  /** What a client reads out of a reply. */
  function Read(reply: Bytes): Reply<bv32> {
    if |reply| == 9 && reply[0] == LETTER_C && (forall i :: 1 <= i < 9 ==> IsHex(reply[i])) then
      Got(Word(Parsed(reply[1], reply[2]), Parsed(reply[3], reply[4]), Parsed(reply[5], reply[6]), Parsed(reply[7], reply[8])))
    else Failed
  }

  lemma PrintedHex(crc: bv32)
    ensures var r := Printed(crc); r[0] == LETTER_C && forall i :: 1 <= i < 9 ==> IsHex(r[i])
    ensures forall k :: 0 <= k < 4 ==> Parsed(HighDigit(ByteOf(crc, k)), LowDigit(ByteOf(crc, k))) == ByteOf(crc, k)
  {
    hide ByteOf, HighDigit, LowDigit, IsHex, Parsed;
    forall k | 0 <= k < 4
      ensures Parsed(HighDigit(ByteOf(crc, k)), LowDigit(ByteOf(crc, k))) == ByteOf(crc, k)
      ensures IsHex(HighDigit(ByteOf(crc, k))) && IsHex(LowDigit(ByteOf(crc, k))) {
      HexRoundTrip(ByteOf(crc, k));
    }
  }

  lemma NoMarkerIsHex(c: bv8)
    requires IsHex(c)
    ensures c != 0 && c != DOLLAR && c != HASH
  {
  }

  lemma HexReply(r: Bytes)
    requires |r| == 9 && r[0] == LETTER_C && forall i :: 1 <= i < 9 ==> IsHex(r[i])
    ensures NoMarkers(r) && 0 !in r
  {
    hide IsHex;
    forall i | 0 <= i < 9 ensures r[i] != 0 && r[i] != DOLLAR && r[i] != HASH {
      if 1 <= i {
        NoMarkerIsHex(r[i]);
      }
    }
  }

  lemma ReadBack(crc: bv32)
    ensures Read(Printed(crc)) == Got(crc)
    ensures NoMarkers(Printed(crc)) && 0 !in Printed(crc)
  {
    hide ByteOf, Word, HighDigit, LowDigit, IsHex, Parsed, NoMarkers;
    PrintedHex(crc);
    WordOfBytes(crc);
    var r := Printed(crc);
    HexReply(r);
  }

  /** `gdbserver_doMemCRC`: nothing is sent when some byte of the region cannot be read; otherwise the frame
      of the reply, which is in the client's hands again the CRC of the region. */
  method DoMemCrc(memory: map<nat, bv8>, addr: nat, len: nat) returns (out: Reply<Bytes>)
    requires addr < ADDRESSES && len < ADDRESSES
    ensures out == if Readable(memory, addr, len) then Got(Frame(Printed(Divided(0xFFFF_FFFF, Region(memory, addr, len))))) else Failed
  {
    hide Divided, Printed, Frame;
    var crc := MemCrc(memory, addr, len);
    if crc.Failed? {
      return Failed;
    }
    var reply := Printed(crc.value);
    ReadBack(crc.value);
    StringEnds(reply);
    var sent := TransmitPacket(reply + [0]);
    out := Got(sent);
  }

  lemma {:induction false} StringEnds(s: Bytes)
    requires 0 !in s
    ensures 0 in s + [0] && StringLength(s + [0]) == |s| && (s + [0])[..|s|] == s
  {
    assert (s + [0])[|s|] == 0;
    if s != [] {
      assert (s + [0])[0] == s[0] && (s + [0])[1..] == s[1..] + [0];
      StringEnds(s[1..]);
    }
  }

  /** The whole of `qCRC`: what a client receives, from any state in which it awaits a packet, is one packet
      that reads as the CRC, by bitwise division, of the bytes of the region. */
  lemma QueryIsAnswered(p: Parser, memory: map<nat, bv8>, addr: nat, len: nat)
    requires GdbPacket.Inv(p) && p.phase == PacketNone && Readable(memory, addr, len)
    ensures var crc := Divided(0xFFFF_FFFF, Region(memory, addr, len));
            Feed(p, Frame(Printed(crc))).1 == [Ack, Accepted(Printed(crc))] && Read(Printed(crc)) == Got(crc)
  {
    hide Divided, Printed, Read, Frame, Feed, GdbPacket.Inv;
    var crc := Divided(0xFFFF_FFFF, Region(memory, addr, len));
    ReadBack(crc);
    FrameAccepted(p, Printed(crc));
  }
}
