/** gdbserver.c and gdb_helpers.c: the frames of the GDB Remote Serial Protocol (GDB manual, section
    E.1 "Overview"): `$`, the body, `#` and two hex digits of checksum. The printer, the
    character-at-a-time parser and the in-place unescaper undo one another. */
module GdbPacket {
  type Bytes = seq<bv8>

  const DOLLAR: bv8 := 0x24
  const HASH: bv8 := 0x23
  const ESCAPE: bv8 := 0x7D
  const STAR: bv8 := 0x2A
  const PLUS: bv8 := 0x2B
  const MINUS: bv8 := 0x2D
  const END_TEXT: bv8 := 0x03

  /** `GDBSERVER_MAX_PACKET_LEN_RX` */
  const MAX_PACKET: nat := 2096

  // ----- bytes

  function Add(x: bv8, y: bv8): bv8 {
    x + y
  }

  /** `c ^ 0x20` */
  function Flip(x: bv8): bv8 {
    x ^ 0x20
  }

  predicate Special(b: bv8) {
    b == ESCAPE || b == HASH || b == DOLLAR || b == STAR
  }

  lemma FlipFacts(b: bv8)
    ensures Flip(Flip(b)) == b
    ensures Special(b) ==> !Special(Flip(b))
  {
  }

  /** Addition of bytes wraps, and is associative. */
  lemma AddFacts(x: bv8, y: bv8, z: bv8)
    ensures Add(Add(x, y), z) == Add(x, Add(y, z)) && Add(0, x) == x && Add(x, 0) == x
  {
  }

  /** The checksum: the sum of the bytes modulo 256. */
  function Sum(s: Bytes): bv8 {
    if s == [] then 0 else Add(Sum(s[..|s| - 1]), s[|s| - 1])
  }

  lemma {:induction false} SumAppend(s: Bytes, r: Bytes)
    ensures Sum(s + r) == Add(Sum(s), Sum(r))
    decreases |r|
  {
    hide Add;
    AddFacts(Sum(s), 0, 0);
    if r == [] {
      assert s + r == s;
    } else {
      var init := r[..|r| - 1];
      assert (s + r)[..|s + r| - 1] == s + init;
      SumAppend(s, init);
      AddFacts(Sum(s), Sum(init), r[|r| - 1]);
    }
  }

  // ----- hex digits

  /** A nibble as `%X` prints it. */
  function HexDigit(n: bv8): bv8 {
    if n < 10 then 0x30 + n else 0x37 + n
  }

  function HighDigit(b: bv8): bv8 {
    HexDigit(b >> 4)
  }

  function LowDigit(b: bv8): bv8 {
    HexDigit(b & 0x0F)
  }

  /** `isxdigit`, in both cases. */
  predicate IsHex(c: bv8) {
    0x30 <= c <= 0x39 || 0x41 <= c <= 0x46 || 0x61 <= c <= 0x66
  }

  function HexValue(c: bv8): bv8 {
    if c <= 0x39 then c - 0x30 else if c <= 0x46 then c - 0x37 else c - 0x57
  }

  /** The two digits as `sscanf` reads them with `%02X`. */
  function Parsed(high: bv8, low: bv8): bv8 {
    (HexValue(high) << 4) | HexValue(low)
  }

  lemma HexRoundTrip(b: bv8)
    ensures Parsed(HighDigit(b), LowDigit(b)) == b
    ensures IsHex(HighDigit(b)) && IsHex(LowDigit(b))
  {
  }

  // ----- the printer

  function Escaped(data: Bytes): Bytes {
    if data == [] then []
    else Escaped(data[..|data| - 1]) + (var b := data[|data| - 1]; if Special(b) then [ESCAPE, Flip(b)] else [b])
  }

  function Frame(body: Bytes): Bytes {
    [DOLLAR] + body + [HASH, HighDigit(Sum(body)), LowDigit(Sum(body))]
  }

  predicate NoMarkers(s: Bytes) {
    DOLLAR !in s && HASH !in s
  }

  /** Escaping leaves no frame marker in the body. */
  lemma {:induction false} EscapedHasNoMarkers(data: Bytes)
    ensures NoMarkers(Escaped(data))
  {
    hide Flip;
    if data != [] {
      EscapedHasNoMarkers(data[..|data| - 1]);
      FlipFacts(data[|data| - 1]);
    }
  }

  /** `gdbserver_TransmitBinaryPacket`; `out` is what is put on the wire. */
  method TransmitBinaryPacket(packet: Bytes, len: nat) returns (out: Bytes)
    requires len <= |packet|
    ensures out == Frame(Escaped(packet[..len]))
  {
    hide Add, Flip, Special, HighDigit, LowDigit, Escaped, Sum;
    var checksum: bv8 := 0;
    out := [DOLLAR];
    var i := 0;
    NothingEscaped(packet);
    while i < len
      invariant i <= len
      invariant out == [DOLLAR] + Escaped(packet[..i]) && checksum == Sum(Escaped(packet[..i]))
    {
      var b := packet[i];
      EscapedStep(packet, i);
      if Special(b) {
        out := out + [ESCAPE];
        out := out + [Flip(b)];
        checksum := Add(checksum, Add(ESCAPE, Flip(b)));
      } else {
        out := out + [b];
        checksum := Add(checksum, b);
      }
      i := i + 1;
    }
    out := out + [HASH];
    out := out + [HighDigit(checksum), LowDigit(checksum)];
  }

  lemma NothingEscaped(packet: Bytes)
    ensures Escaped(packet[..0]) == [] && Sum(Escaped(packet[..0])) == 0
  {
  }

  lemma EscapedStep(packet: Bytes, i: nat)
    requires i < |packet|
    ensures var b := packet[i];
            var before := Escaped(packet[..i]);
            var added := if Special(b) then [ESCAPE, Flip(b)] else [b];
            && Escaped(packet[..i + 1]) == before + added
            && Sum(before + added) == Add(Sum(before), if Special(b) then Add(ESCAPE, Flip(b)) else b)
  {
    hide Add, Flip, Special, Sum;
    var b := packet[i];
    assert packet[..i + 1][..i] == packet[..i];
    if Special(b) {
      SumTwo(ESCAPE, Flip(b));
      SumAppend(Escaped(packet[..i]), [ESCAPE, Flip(b)]);
    } else {
      SumOne(b);
      SumAppend(Escaped(packet[..i]), [b]);
    }
  }

  lemma SumOne(x: bv8)
    ensures Sum([x]) == x
  {
    assert [x][..0] == [];
    AddFacts(x, 0, 0);
    hide Add;
  }

  lemma SumTwo(x: bv8, y: bv8)
    ensures Sum([x, y]) == Add(x, y)
  {
    hide Add;
    SumOne(x);
    assert [x, y][..1] == [x];
  }

  /** A C string: the bytes before the first zero. */
  function StringLength(s: Bytes): (n: nat)
    requires 0 in s
    ensures n < |s| && s[n] == 0 && 0 !in s[..n]
  {
    if s[0] == 0 then 0 else 1 + StringLength(s[1..])
  }

  /** `gdbserver_TransmitPacket`, which escapes nothing. */
  method TransmitPacket(packet: Bytes) returns (out: Bytes)
    requires 0 in packet
    ensures out == Frame(packet[..StringLength(packet)])
  {
    hide Add, HighDigit, LowDigit;
    var checksum: bv8 := 0;
    out := [DOLLAR];
    var i := 0;
    while packet[i] != 0
      invariant i <= StringLength(packet)
      invariant out == [DOLLAR] + packet[..i] && checksum == Sum(packet[..i])
      decreases StringLength(packet) - i
    {
      BeforeEnd(packet, i);
      assert packet[..i + 1][..i] == packet[..i];
      out := out + [packet[i]];
      checksum := Add(checksum, packet[i]);
      i := i + 1;
    }
    AtEnd(packet, i);
    out := out + [HASH];
    out := out + [HighDigit(checksum), LowDigit(checksum)];
  }

  lemma BeforeEnd(packet: Bytes, i: nat)
    requires 0 in packet && i <= StringLength(packet) && packet[i] != 0
    ensures i < StringLength(packet)
  {
  }

  lemma AtEnd(packet: Bytes, i: nat)
    requires 0 in packet && i <= StringLength(packet) && packet[i] == 0
    ensures i == StringLength(packet)
  {
  }

  // ----- the parser

  datatype Phase = PacketNone | PacketData | PacketChecksum

  datatype Parser = Parser(
    phase: Phase,
    index: nat,
    packet: Bytes,
    len: nat,
    checksum: bv8,
    chars: (bv8, bv8),
    awaitingAck: bool)

  /** What the parser does to the outside world. */
  datatype Event =
    | Accepted(body: Bytes)
    | Ack | Nack
    | Retransmit | Interrupt
    | ResetError

  function Reset(p: Parser): Parser {
    p.(phase := PacketNone, index := 0, awaitingAck := false)
  }

  /** `gdbserver_processPacket` up to the hand-over of the packet. */
  function ProcessPacket(p: Parser): (Parser, seq<Event>)
    requires p.len <= |p.packet|
  {
    if Parsed(p.chars.0, p.chars.1) != p.checksum then (Reset(p), [ResetError, Nack])
    else (p, [Ack, Accepted(p.packet[..p.len])])
  }

  /** `gdbserver_processChar` */
  function ProcessChar(p: Parser, c: bv8): (Parser, seq<Event>)
    requires Inv(p)
  {
    if p.phase == PacketData then
      if c == DOLLAR then (Reset(p), [ResetError])
      else if c == HASH then
        (p.(phase := PacketChecksum, packet := p.packet[p.index := 0], len := p.index, index := 0), [])
      else if p.index >= MAX_PACKET - 1 then (Reset(p), [ResetError])
      else (p.(packet := p.packet[p.index := c], index := p.index + 1, checksum := Add(p.checksum, c)), [])
    else if c == MINUS then (p, if p.awaitingAck then [Retransmit] else [])
    else if c == PLUS then (p.(awaitingAck := false), [])
    else if c == DOLLAR then
      if p.phase != PacketNone then (Reset(p), [ResetError])
      else (p.(phase := PacketData, checksum := 0, index := 0), [])
    else if c == END_TEXT then (p, [Interrupt])
    else if p.phase == PacketNone then (p, [])
    else if !IsHex(c) then (Reset(p), [ResetError])
    else if p.index == 0 then (p.(chars := (c, p.chars.1), index := 1), [])
    else ProcessPacket(p.(chars := (p.chars.0, c), phase := PacketNone))
  }

  /** The index is inside the packet buffer, the packet so far has no frame marker in it, and the
      checksum is the sum of its bytes modulo 256. */
  predicate Inv(p: Parser) {
    && |p.packet| == MAX_PACKET && p.index < MAX_PACKET && p.len < MAX_PACKET
    && (p.phase == PacketData ==>
          p.checksum == Sum(p.packet[..p.index]) && NoMarkers(p.packet[..p.index]))
    && (p.phase == PacketChecksum ==>
          p.index <= 1 && p.packet[p.len] == 0
          && p.checksum == Sum(p.packet[..p.len]) && NoMarkers(p.packet[..p.len]))
  }

  /** A packet that is handed over fits the buffer and has no frame marker in it. */
  predicate GoodEvent(e: Event) {
    e.Accepted? ==> |e.body| < MAX_PACKET && NoMarkers(e.body)
  }

  lemma StoredPrefix(s: Bytes, k: nat, c: bv8)
    requires k < |s|
    ensures s[k := c][..k] == s[..k] && s[k := c][..k + 1] == s[..k] + [c]
  {
  }

  lemma CharKeepsInv(p: Parser, c: bv8)
    requires Inv(p)
    ensures Inv(ProcessChar(p, c).0)
    ensures forall e :: e in ProcessChar(p, c).1 ==> GoodEvent(e)
  {
    hide Add, IsHex, Parsed, Sum;
    if p.phase == PacketData {
      StoredPrefix(p.packet, p.index, c);
      StoredPrefix(p.packet, p.index, 0);
      SumSnoc(p.packet[..p.index], c);
    }
    EmptySum(p.packet);
  }

  lemma SumSnoc(s: Bytes, c: bv8)
    ensures Sum(s + [c]) == Add(Sum(s), c)
  {
    hide Add;
    assert (s + [c])[..|s|] == s;
  }

  lemma EmptySum(s: Bytes)
    ensures Sum(s[..0]) == 0 && s[..0] == []
  {
  }

  /** Feeding a stream of characters. */
  function Feed(p: Parser, input: Bytes): (r: (Parser, seq<Event>))
    requires Inv(p)
    ensures Inv(r.0)
    decreases |input|
  {
    if input == [] then (p, [])
    else
      var first := Feed(p, input[..|input| - 1]);
      CharKeepsInv(first.0, input[|input| - 1]);
      var last := ProcessChar(first.0, input[|input| - 1]);
      (last.0, first.1 + last.1)
  }

  /** For every input stream: the index stays inside the buffer, the checksum is the byte sum, and
      whatever is accepted fits and contains no marker. */
  lemma {:induction false} EveryStreamIsSafe(p: Parser, input: Bytes)
    requires Inv(p)
    ensures var r := Feed(p, input);
            && r.0.index < |r.0.packet| == MAX_PACKET
            && (r.0.phase == PacketData ==> r.0.checksum == Sum(r.0.packet[..r.0.index]))
            && (forall e :: e in r.1 ==> GoodEvent(e))
    decreases |input|
  {
    hide ProcessChar, Sum;
    if input != [] {
      EveryStreamIsSafe(p, input[..|input| - 1]);
      CharKeepsInv(Feed(p, input[..|input| - 1]).0, input[|input| - 1]);
    }
  }

  lemma FeedOne(p: Parser, input: Bytes, c: bv8)
    requires Inv(p)
    ensures Feed(p, input + [c]) ==
            (ProcessChar(Feed(p, input).0, c).0, Feed(p, input).1 + ProcessChar(Feed(p, input).0, c).1)
  {
    assert (input + [c])[..|input|] == input;
  }

  // The characters of a frame, one kind at a time.

  lemma FeedNone(p: Parser)
    requires Inv(p)
    ensures Feed(p, []) == (p, [])
  {
  }

  lemma Opens(p: Parser)
    requires Inv(p) && p.phase == PacketNone
    ensures ProcessChar(p, DOLLAR) == (p.(phase := PacketData, checksum := 0, index := 0), [])
  {
  }

  lemma PartUnmarked(init: Bytes, c: bv8)
    requires NoMarkers(init + [c])
    ensures NoMarkers(init) && c != DOLLAR && c != HASH
  {
    assert c == (init + [c])[|init|];
  }

  lemma Stores(p: Parser, init: Bytes, c: bv8)
    requires Inv(p) && p.phase == PacketData && p.index == |init| < MAX_PACKET - 1 && p.packet[..|init|] == init
    requires p.checksum == Sum(init) && c != DOLLAR && c != HASH
    ensures var r := ProcessChar(p, c);
            && r.1 == [] && r.0.phase == PacketData && r.0.index == |init| + 1 && r.0.packet[..|init| + 1] == init + [c]
            && r.0.checksum == Sum(init + [c])
  {
    StoredPrefix(p.packet, |init|, c);
    SumSnoc(init, c);
    hide Sum, Add;
  }

  lemma BodyEnds(p: Parser, body: Bytes)
    requires Inv(p) && p.phase == PacketData && p.index == |body| && p.packet[..|body|] == body
    ensures var r := ProcessChar(p, HASH);
            && r.1 == [] && r.0.phase == PacketChecksum && r.0.index == 0 && r.0.len == |body| < |r.0.packet|
            && r.0.packet[..|body|] == body && r.0.packet[|body|] == 0 && r.0.checksum == p.checksum
  {
    StoredPrefix(p.packet, |body|, 0);
    hide Sum;
  }

  lemma FirstDigit(p: Parser, c: bv8)
    requires Inv(p) && p.phase == PacketChecksum && p.index == 0 && IsHex(c)
    ensures ProcessChar(p, c) == (p.(chars := (c, p.chars.1), index := 1), [])
  {
    HexRange(c);
    hide Sum, IsHex;
  }

  lemma LastDigit(p: Parser, c: bv8)
    requires Inv(p) && p.phase == PacketChecksum && p.index == 1 && IsHex(c) && Parsed(p.chars.0, c) == p.checksum
    ensures ProcessChar(p, c) == (p.(chars := (p.chars.0, c), phase := PacketNone), [Ack, Accepted(p.packet[..p.len])])
  {
    HexRange(c);
    hide Sum, IsHex, Parsed;
  }

  /** While a body is being received its characters are stored and summed, and nothing else happens. */
  lemma {:induction false} FeedBody(p: Parser, body: Bytes)
    requires Inv(p) && p.phase == PacketNone && NoMarkers(body) && |body| < MAX_PACKET
    ensures var r := Feed(p, [DOLLAR] + body);
            && r.1 == [] && r.0.phase == PacketData && r.0.index == |body| && r.0.packet[..|body|] == body
            && r.0.checksum == Sum(body)
    decreases |body|
  {
    hide ProcessChar, Feed, Add, Sum, NoMarkers;
    if body == [] {
      assert [DOLLAR] + body == [] + [DOLLAR];
      FeedOne(p, [], DOLLAR);
      FeedNone(p);
      EmptySum(body);
      Opens(p);
    } else {
      var init := body[..|body| - 1];
      var c := body[|body| - 1];
      assert [DOLLAR] + body == ([DOLLAR] + init) + [c];
      assert body == init + [c];
      PartUnmarked(init, c);
      FeedBody(p, init);
      FeedOne(p, [DOLLAR] + init, c);
      Stores(Feed(p, [DOLLAR] + init).0, init, c);
    }
  }

  /** A frame whose body has no marker in it and fits the buffer is accepted: exactly one packet, that
      body, and one acknowledgement. */
  lemma FrameAccepted(p: Parser, body: Bytes)
    requires Inv(p) && p.phase == PacketNone && NoMarkers(body) && |body| < MAX_PACKET
    ensures Feed(p, Frame(body)).1 == [Ack, Accepted(body)]
    ensures Feed(p, Frame(body)).0.phase == PacketNone
    ensures Feed(p, Frame(body)).0.packet[..|body|] == body && Feed(p, Frame(body)).0.packet[|body|] == 0
  {
    hide ProcessChar, Feed, Sum, Parsed, HighDigit, LowDigit, IsHex;
    FeedBody(p, body);
    HexIsNoMarker(Sum(body));
    var sum := Sum(body);
    var a := [DOLLAR] + body;
    var b := a + [HASH];
    var d := b + [HighDigit(sum)];
    assert Frame(body) == d + [LowDigit(sum)];
    FeedOne(p, a, HASH);
    BodyEnds(Feed(p, a).0, body);
    FeedOne(p, b, HighDigit(sum));
    FirstDigit(Feed(p, b).0, HighDigit(sum));
    FeedOne(p, d, LowDigit(sum));
    LastDigit(Feed(p, d).0, LowDigit(sum));
  }

  lemma HexIsNoMarker(b: bv8)
    ensures IsHex(HighDigit(b)) && IsHex(LowDigit(b)) && Parsed(HighDigit(b), LowDigit(b)) == b
    ensures HighDigit(b) != DOLLAR && HighDigit(b) != PLUS && HighDigit(b) != MINUS && HighDigit(b) != END_TEXT
    ensures LowDigit(b) != DOLLAR && LowDigit(b) != PLUS && LowDigit(b) != MINUS && LowDigit(b) != END_TEXT
  {
    HexRoundTrip(b);
    HexRange(HighDigit(b));
    HexRange(LowDigit(b));
    hide HighDigit, LowDigit, Parsed, IsHex;
  }

  lemma HexRange(c: bv8)
    requires IsHex(c)
    ensures c != DOLLAR && c != PLUS && c != MINUS && c != END_TEXT
  {
  }

  /** A packet sent without escaping arrives exactly when its body has no marker in it and fits. */
  lemma PlainRoundTrip(p: Parser, body: Bytes)
    requires Inv(p) && p.phase == PacketNone
    ensures Accepted(body) in Feed(p, Frame(body)).1 <==> NoMarkers(body) && |body| < MAX_PACKET
  {
    hide Feed, Frame, Inv;
    EveryStreamIsSafe(p, Frame(body));
    if NoMarkers(body) && |body| < MAX_PACKET {
      FrameAccepted(p, body);
    } else {
      assert !GoodEvent(Accepted(body));
    }
  }

  /** A character, and what the rest of the server leaves of the parser's state before the next one. */
  datatype Turn = Turn(c: bv8, packet: Bytes, index: nat, awaitingAck: bool)

  /** Between packets the handler of the last one may have rewritten the packet buffer, and an error in it has
      reset the index; an acknowledgement is awaited from any transmission on. */
  predicate MayLeave(p: Parser, turn: Turn) {
    if p.phase == PacketNone then |turn.packet| == |p.packet| && (turn.index == p.index || turn.index == 0)
    else turn.packet == p.packet && turn.index == p.index
  }

  function Leave(p: Parser, turn: Turn): Parser {
    p.(packet := turn.packet, index := turn.index, awaitingAck := turn.awaitingAck)
  }

  lemma LeaveKeepsInv(p: Parser, turn: Turn)
    requires Inv(p) && MayLeave(p, turn)
    ensures Inv(Leave(p, turn))
  {
    hide Sum;
  }

  /** A run of characters and handlers. */
  predicate Served(p: Parser, turns: seq<Turn>)
    requires Inv(p)
    decreases |turns|, 0
  {
    turns == []
    || (Served(p, turns[..|turns| - 1])
        && MayLeave(ProcessChar(After(p, turns[..|turns| - 1]).0, turns[|turns| - 1].c).0, turns[|turns| - 1]))
  }

  function After(p: Parser, turns: seq<Turn>): (r: (Parser, seq<Event>))
    requires Inv(p) && Served(p, turns)
    ensures Inv(r.0)
    decreases |turns|, 1
  {
    if turns == [] then (p, [])
    else
      var before := After(p, turns[..|turns| - 1]);
      var turn := turns[|turns| - 1];
      CharKeepsInv(before.0, turn.c);
      var r := ProcessChar(before.0, turn.c);
      LeaveKeepsInv(r.0, turn);
      (Leave(r.0, turn), before.1 + r.1)
  }

  /** The same over every run in which handlers act between the characters: the index stays inside the
      buffer, the checksum is the byte sum, whatever is accepted fits and contains no marker; and between
      packets the parser is as good as new: any frame that fits is accepted next. */
  lemma {:induction false} EveryServiceIsSafe(p: Parser, turns: seq<Turn>, body: Bytes)
    requires Inv(p) && Served(p, turns)
    ensures var r := After(p, turns);
            && r.0.index < |r.0.packet| == MAX_PACKET
            && (r.0.phase == PacketData ==> r.0.checksum == Sum(r.0.packet[..r.0.index]))
            && (forall e :: e in r.1 ==> GoodEvent(e))
            && (r.0.phase == PacketNone && NoMarkers(body) && |body| < MAX_PACKET ==>
                  Feed(r.0, Frame(body)).1 == [Ack, Accepted(body)])
    decreases |turns|
  {
    hide ProcessChar, Sum, Feed, Frame, NoMarkers, GoodEvent;
    if turns != [] {
      EveryServiceIsSafe(p, turns[..|turns| - 1], body);
      CharKeepsInv(After(p, turns[..|turns| - 1]).0, turns[|turns| - 1].c);
    }
    var r := After(p, turns).0;
    if r.phase == PacketNone && NoMarkers(body) && |body| < MAX_PACKET {
      FrameAccepted(r, body);
    }
  }

  // ----- unescaping in place

  /** The bytes that the escaped bytes from `i` to `n` stand for; an escape in the last place takes the
      byte after it. */
  function Unescaped(s: Bytes, i: nat, n: nat): Bytes
    requires n < |s|
    decreases n - i
  {
    if i >= n then []
    else if s[i] == ESCAPE then [Flip(s[i + 1])] + Unescaped(s, i + 2, n)
    else [s[i]] + Unescaped(s, i + 1, n)
  }

  lemma UnescapedNext(s: Bytes, i: nat, n: nat)
    requires n < |s|
    ensures Unescaped(s, i, n) ==
            if i >= n then []
            else if s[i] == ESCAPE then [Flip(s[i + 1])] + Unescaped(s, i + 2, n)
            else [s[i]] + Unescaped(s, i + 1, n)
  {
  }

  lemma Regroup(done: Bytes, x: bv8, rest: Bytes)
    ensures done + ([x] + rest) == (done + [x]) + rest
  {
  }

  /** One byte written behind those already written. */
  method Move(data: array<bv8>, to: nat, from: nat)
    requires to <= from < data.Length
    modifies data
    ensures data[..to + 1] == old(data[..to]) + [old(data[from])]
    ensures forall k :: from < k < data.Length ==> data[k] == old(data[k])
  {
    data[to] := data[from];
  }

  /** `gdb_helpers_deEscape_Binary_inputLen`: the reading index never falls behind the writing one. */
  method DeEscapeInputLen(data: array<bv8>, n: nat) returns (processed: nat)
    requires n < data.Length
    modifies data
    ensures processed <= n && data[..processed] == Unescaped(old(data[..]), 0, n)
    ensures forall k :: n < k < data.Length ==> data[k] == old(data[k])
  {
    hide Flip, Unescaped;
    ghost var was := data[..];
    processed := 0;
    var index := 0;
    while index < n
      invariant processed <= index <= n + 1 && processed <= n
      invariant forall k :: index <= k < data.Length ==> data[k] == was[k]
      invariant data[..processed] + Unescaped(was, index, n) == Unescaped(was, 0, n)
    {
      ghost var done := data[..processed];
      UnescapedNext(was, index, n);
      if data[index] == ESCAPE {
        index := index + 1;
        data[index] := Flip(data[index]);
      }
      ghost var byte := data[index];
      Move(data, processed, index);
      processed := processed + 1;
      index := index + 1;
      Regroup(done, byte, Unescaped(was, index, n));
    }
    UnescapedNext(was, index, n);
    assert data[..processed] + [] == data[..processed];
  }

  /** There are enough escaped bytes from `i` on for `m` bytes. */
  predicate Enough(s: Bytes, i: nat, m: nat)
    decreases m
  {
    m == 0 || (i < |s| && if s[i] == ESCAPE then i + 1 < |s| && Enough(s, i + 2, m - 1) else Enough(s, i + 1, m - 1))
  }

  /** The first `m` bytes that the escaped bytes from `i` on stand for. */
  function UnescapedFirst(s: Bytes, i: nat, m: nat): Bytes
    requires Enough(s, i, m)
    decreases m
  {
    if m == 0 then []
    else if s[i] == ESCAPE then [Flip(s[i + 1])] + UnescapedFirst(s, i + 2, m - 1)
    else [s[i]] + UnescapedFirst(s, i + 1, m - 1)
  }

  lemma FirstStep(s: Bytes, i: nat, m: nat)
    requires Enough(s, i, m) && 0 < m
    ensures i < |s|
    ensures if s[i] == ESCAPE then
              i + 1 < |s| && Enough(s, i + 2, m - 1) && UnescapedFirst(s, i, m) == [Flip(s[i + 1])] + UnescapedFirst(s, i + 2, m - 1)
            else
              Enough(s, i + 1, m - 1) && UnescapedFirst(s, i, m) == [s[i]] + UnescapedFirst(s, i + 1, m - 1)
  {
  }

  lemma FirstNone(s: Bytes, i: nat)
    ensures Enough(s, i, 0) && UnescapedFirst(s, i, 0) == []
  {
  }

  /** `gdb_helpers_deEscape_Binary_outputLen` */
  method DeEscapeOutputLen(data: array<bv8>, m: nat) returns (processed: nat)
    requires Enough(data[..], 0, m)
    modifies data
    ensures processed == m <= data.Length && data[..m] == UnescapedFirst(old(data[..]), 0, m)
  {
    hide Flip, Enough, UnescapedFirst;
    ghost var was := data[..];
    processed := 0;
    var index := 0;
    while processed < m
      invariant processed <= m && processed <= index <= data.Length
      invariant Enough(was, index, m - processed)
      invariant forall k :: index <= k < data.Length ==> data[k] == was[k]
      invariant data[..processed] + UnescapedFirst(was, index, m - processed) == UnescapedFirst(was, 0, m)
    {
      ghost var done := data[..processed];
      FirstStep(was, index, m - processed);
      if data[index] == ESCAPE {
        index := index + 1;
        data[index] := Flip(data[index]);
      }
      ghost var byte := data[index];
      Move(data, processed, index);
      processed := processed + 1;
      index := index + 1;
      Regroup(done, byte, UnescapedFirst(was, index, m - processed));
    }
    FirstNone(was, index);
    assert data[..processed] + [] == data[..processed];
  }

  // ----- the round trip

  /** Unescaping goes on over a longer stretch where it left off. */
  lemma {:induction false} UnescapeStep(s: Bytes, i: nat, n: nat, more: nat)
    requires n + more < |s| && i <= n && Aligned(s, i, n)
    ensures Unescaped(s, i, n + more) == Unescaped(s, i, n) + Unescaped(s, n, n + more)
    decreases n - i
  {
    hide Flip;
    if i < n {
      if s[i] == ESCAPE {
        UnescapeStep(s, i + 2, n, more);
      } else {
        UnescapeStep(s, i + 1, n, more);
      }
    }
  }

  /** No escape pair straddles position `n`. */
  predicate Aligned(s: Bytes, i: nat, n: nat)
    decreases n - i
  {
    i == n || (i < n && i < |s| && if s[i] == ESCAPE then i + 1 < n && Aligned(s, i + 2, n) else Aligned(s, i + 1, n))
  }

  lemma {:induction false} AlignedStep(s: Bytes, i: nat, n: nat, more: nat)
    requires i <= n && n + more <= |s| && Aligned(s, i, n) && Aligned(s, n, n + more)
    ensures Aligned(s, i, n + more)
    decreases n - i
  {
    if i < n {
      AlignedStep(s, if s[i] == ESCAPE then i + 2 else i + 1, n, more);
    }
  }

  /** Unescaping what was escaped, wherever it is followed by something, gives back the original. */
  lemma {:induction false} UnescapeUndoes(data: Bytes, s: Bytes)
    requires |Escaped(data)| < |s| && s[..|Escaped(data)|] == Escaped(data)
    ensures Aligned(s, 0, |Escaped(data)|)
    ensures Unescaped(s, 0, |Escaped(data)|) == data
    decreases |data|
  {
    hide Flip, Special;
    if data != [] {
      var init := data[..|data| - 1];
      var b := data[|data| - 1];
      var n := |Escaped(init)|;
      assert Escaped(data)[..n] == Escaped(init);
      assert s[..n] == s[..|Escaped(data)|][..n];
      UnescapeUndoes(init, s);
      LastByte(data, s, n);
      var more := if Special(b) then 2 else 1;
      AlignedStep(s, 0, n, more);
      UnescapeStep(s, 0, n, more);
      assert data == init + [b];
    }
  }

  lemma LastByte(data: Bytes, s: Bytes, n: nat)
    requires data != [] && |Escaped(data)| < |s| && s[..|Escaped(data)|] == Escaped(data)
    requires n == |Escaped(data[..|data| - 1])|
    ensures var b := data[|data| - 1];
            var more := if Special(b) then 2 else 1;
            && |Escaped(data)| == n + more
            && Aligned(s, n, n + more) && Unescaped(s, n, n + more) == [b]
  {
    var b := data[|data| - 1];
    FlipFacts(b);
    NotEscape(b);
    hide Flip, Special;
    assert s[n] == s[..|Escaped(data)|][n];
    if Special(b) {
      assert s[n + 1] == s[..|Escaped(data)|][n + 1];
    }
  }

  lemma NotEscape(b: bv8)
    ensures !Special(b) ==> b != ESCAPE
  {
  }

  /** Asking for as many bytes as were escaped gives the same. */
  lemma {:induction false} SameFirst(s: Bytes, i: nat, n: nat)
    requires n < |s| && Aligned(s, i, n)
    ensures Enough(s, i, |Unescaped(s, i, n)|)
    ensures UnescapedFirst(s, i, |Unescaped(s, i, n)|) == Unescaped(s, i, n)
    decreases n - i
  {
    hide Flip;
    if i < n {
      SameFirst(s, if s[i] == ESCAPE then i + 2 else i + 1, n);
    }
  }

  lemma {:induction false} UnescapeFirstUndoes(data: Bytes, s: Bytes)
    requires |Escaped(data)| < |s| && s[..|Escaped(data)|] == Escaped(data)
    ensures Enough(s, 0, |data|) && UnescapedFirst(s, 0, |data|) == data
  {
    hide Enough, UnescapedFirst, Unescaped, Escaped, Aligned;
    UnescapeUndoes(data, s);
    SameFirst(s, 0, |Escaped(data)|);
  }

  /** The whole way: for every byte string whose escaped form fits the packet buffer, what the printer
      puts on the wire is accepted as exactly one packet, and unescaping the stored body gives back the
      bytes that were sent. */
  lemma {:induction false} BinaryRoundTrip(p: Parser, data: Bytes)
    requires Inv(p) && p.phase == PacketNone && |Escaped(data)| < MAX_PACKET
    ensures var r := Feed(p, Frame(Escaped(data)));
            && r.1 == [Ack, Accepted(Escaped(data))]
            && r.0.phase == PacketNone
            && Unescaped(r.0.packet, 0, |Escaped(data)|) == data
  {
    hide Feed, Frame, Inv, Unescaped, Escaped;
    EscapedHasNoMarkers(data);
    FrameAccepted(p, Escaped(data));
    FeedSize(p, Frame(Escaped(data)));
    UnescapeUndoes(data, Feed(p, Frame(Escaped(data))).0.packet);
  }

  lemma FeedSize(p: Parser, input: Bytes)
    requires Inv(p)
    ensures |Feed(p, input).0.packet| == MAX_PACKET
  {
    assert Inv(Feed(p, input).0);
  }

  // ----- the parser in place

  class Server {
    var phase: Phase
    var index: nat
    const packet: array<bv8>
    var len: nat
    var checksum: bv8
    var char0: bv8
    var char1: bv8
    var awaitingAck: bool

    ghost function State(): Parser
      reads this, packet
    {
      Parser(phase, index, packet[..], len, checksum, (char0, char1), awaitingAck)
    }

    constructor ()
      ensures Inv(State()) && phase == PacketNone && fresh(packet)
    {
      phase := PacketNone;
      index := 0;
      packet := new bv8[MAX_PACKET](_ => 0);
      len := 0;
      checksum := 0;
      char0 := 0;
      char1 := 0;
      awaitingAck := false;
    }

    /** `gdbserver_reset_error` */
    method ResetAfterError()
      modifies `phase, `index, `awaitingAck
      ensures State() == Reset(old(State()))
    {
      phase := PacketNone;
      index := 0;
      awaitingAck := false;
    }

    /** `gdbserver_processPacket` up to the hand-over of the packet. */
    method CheckPacket() returns (events: seq<Event>)
      requires len <= packet.Length
      modifies `phase, `index, `awaitingAck
      ensures (State(), events) == ProcessPacket(old(State()))
    {
      if Parsed(char0, char1) != checksum {
        ResetAfterError();
        events := [ResetError, Nack];
      } else {
        events := [Ack, Accepted(packet[..len])];
      }
    }

    /** The data phase of `gdbserver_processChar`. */
    method DataChar(c: bv8) returns (events: seq<Event>)
      requires Inv(State()) && phase == PacketData
      modifies this, packet
      ensures (State(), events) == ProcessChar(old(State()), c)
    {
      hide Add, Sum, IsHex;
      events := [];
      if c == DOLLAR {
        ResetAfterError();
        events := [ResetError];
      } else if c == HASH {
        phase := PacketChecksum;
        packet[index] := 0;
        len := index;
        index := 0;
      } else if index >= MAX_PACKET - 1 {
        ResetAfterError();
        events := [ResetError];
      } else {
        packet[index] := c;
        index := index + 1;
        checksum := Add(checksum, c);
      }
    }

    /** `gdbserver_processChar` */
    method HandleChar(c: bv8) returns (events: seq<Event>)
      requires Inv(State())
      modifies this, packet
      ensures Inv(State()) && (State(), events) == ProcessChar(old(State()), c)
    {
      CharKeepsInv(State(), c);
      hide Add, Sum, IsHex, Parsed;
      events := [];
      if phase == PacketData {
        events := DataChar(c);
      } else if c == MINUS {
        if awaitingAck {
          events := [Retransmit];
        }
      } else if c == PLUS {
        if awaitingAck {
          awaitingAck := false;
        }
      } else if c == DOLLAR {
        if phase != PacketNone {
          ResetAfterError();
          events := [ResetError];
        } else {
          phase := PacketData;
          checksum := 0;
          index := 0;
        }
      } else if c == END_TEXT {
        events := [Interrupt];
      } else if phase == PacketChecksum {
        if !IsHex(c) {
          ResetAfterError();
          events := [ResetError];
        } else if index == 0 {
          char0 := c;
          index := index + 1;
        } else {
          char1 := c;
          phase := PacketNone;
          events := CheckPacket();
        }
      }
    }
  }
}
