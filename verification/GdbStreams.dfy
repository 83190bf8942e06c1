/** gdbserver.c: what the parser of `GdbPacket` answers, read off the characters alone. The checksum and
    its digits are tied to the integers, and over every run a packet is accepted exactly when the
    characters just received are a frame of it. */
module GdbStreams {
  import opened GdbPacket

  // ----- bytes as integers

  /** The sum of the bytes, as an integer. */
  function Total(s: Bytes): nat {
    if s == [] then 0 else Total(s[..|s| - 1]) + Value(s[|s| - 1])
  }

  function Value(x: bv8): nat {
    x as int
  }

  function Value9(w: bv9): nat {
    w as int
  }

  function Low(w: bv9): bv8 {
    (w & 0xFF) as bv8
  }

  lemma WideIsSum(x: bv8, y: bv8)
    ensures Value9(x as bv9 + y as bv9) == Value(x) + Value(y)
  {
  }

  lemma LowIsSum(x: bv8, y: bv8)
    ensures Add(x, y) == Low(x as bv9 + y as bv9)
  {
  }

  lemma LowIsModulo(w: bv9)
    ensures Value(Low(w)) == Value9(w) % 256
  {
    LowBits(w);
  }

  lemma LowBits(w: bv9)
    ensures (w & 0xFF) as int == w as int % 256
  {
  }

  lemma AddIsSum(x: bv8, y: bv8)
    ensures Value(Add(x, y)) == (Value(x) + Value(y)) % 256
  {
    hide Add, Low, Value, Value9;
    WideIsSum(x, y);
    LowIsSum(x, y);
    LowIsModulo(x as bv9 + y as bv9);
  }

  lemma SumModulo(a: nat, b: nat)
    ensures (a % 256 + b) % 256 == (a + b) % 256
  {
  }

  lemma ZeroValue()
    ensures Value(0) == 0
  {
  }

  /** The checksum is the integer sum of the bytes modulo 256. */
  lemma {:induction false} SumIsTotal(s: Bytes)
    ensures Value(Sum(s)) == Total(s) % 256
  {
    hide Add, Value;
    ZeroValue();
    if s != [] {
      var init := s[..|s| - 1];
      SumIsTotal(init);
      AddIsSum(Sum(init), s[|s| - 1]);
      SumModulo(Total(init), Value(s[|s| - 1]));
    }
  }

  const UPPER := "0123456789ABCDEF"
  const LOWER := "0123456789abcdef"

  lemma DigitText(n: bv8)
    requires n < 16
    ensures HexDigit(n) as int == UPPER[n as int] as int
  {
  }

  lemma Nibbles(b: bv8)
    ensures (b >> 4) as int == b as int / 16 && (b & 0x0F) as int == b as int % 16
  {
  }

  /** The two digits printed are those of the byte in base 16, in capitals. */
  lemma PrintedInHex(b: bv8)
    ensures HighDigit(b) as int == UPPER[b as int / 16] as int
    ensures LowDigit(b) as int == UPPER[b as int % 16] as int
  {
    hide HexDigit;
    Nibbles(b);
    DigitText(b >> 4);
    DigitText(b & 0x0F);
  }

  /** The digits read are those of base 16, in either case, and no others. */
  lemma DigitsRead(c: bv8, n: bv8)
    requires n < 16
    ensures IsHex(c) && HexValue(c) == n <==> Value(c) == UPPER[Value(n)] as int || Value(c) == LOWER[Value(n)] as int
  {
    TextOf(n);
  }

  lemma TextOf(n: bv8)
    requires n < 16
    ensures UPPER[Value(n)] as int == if n < 10 then 0x30 + Value(n) else 0x37 + Value(n)
    ensures LOWER[Value(n)] as int == if n < 10 then 0x30 + Value(n) else 0x57 + Value(n)
  {
  }

  lemma ReadsBase16(h: bv8, l: bv8)
    requires IsHex(h) && IsHex(l)
    ensures Value(Parsed(h, l)) == 16 * Value(HexValue(h)) + Value(HexValue(l))
  {
    HexIsSmall(h);
    HexIsSmall(l);
    hide HexValue, IsHex;
  }

  lemma HexIsSmall(c: bv8)
    requires IsHex(c)
    ensures HexValue(c) < 16
  {
  }

  // ----- frames in a stream of characters

  /** Characters that a parser waiting for a digit takes without leaving its place. */
  predicate Gap(s: Bytes) {
    forall i :: 0 <= i < |s| ==> s[i] == PLUS || s[i] == MINUS || s[i] == END_TEXT
  }

  /** A stream up to the first digit of the checksum: what came before the frame, the body, the first
      digit, and what came between. */
  datatype Parts = Parts(before: Bytes, body: Bytes, gap: Bytes, high: bv8, gap2: Bytes)

  function Opened(x: Parts): Bytes {
    x.before + [DOLLAR] + x.body
  }

  function Ended(x: Parts): Bytes {
    Opened(x) + [HASH] + x.gap
  }

  function Half(x: Parts): Bytes {
    Ended(x) + [x.high] + x.gap2
  }

  function Chars(turns: seq<Turn>): (r: Bytes)
    ensures |r| == |turns|
  {
    if turns == [] then [] else Chars(turns[..|turns| - 1]) + [turns[|turns| - 1].c]
  }

  /** After the first `n` characters the parser is between packets. */
  ghost predicate Quiet(p: Parser, turns: seq<Turn>, n: nat)
    requires Inv(p)
  {
    n <= |turns| && Served(p, turns[..n]) && After(p, turns[..n]).0.phase == PacketNone
  }

  ghost predicate IsOpened(p: Parser, turns: seq<Turn>, x: Parts)
    requires Inv(p)
  {
    Chars(turns) == Opened(x) && Quiet(p, turns, |x.before|) && NoMarkers(x.body) && |x.body| < MAX_PACKET
  }

  ghost predicate IsEnded(p: Parser, turns: seq<Turn>, x: Parts)
    requires Inv(p)
  {
    Chars(turns) == Ended(x) && Quiet(p, turns, |x.before|) && NoMarkers(x.body) && |x.body| < MAX_PACKET && Gap(x.gap)
  }

  ghost predicate IsHalf(p: Parser, turns: seq<Turn>, x: Parts)
    requires Inv(p)
  {
    && Chars(turns) == Half(x) && Quiet(p, turns, |x.before|) && NoMarkers(x.body) && |x.body| < MAX_PACKET && Gap(x.gap)
    && IsHex(x.high) && Gap(x.gap2)
  }

  /** The parser stands where `x` says. */
  ghost predicate Stands(r: Parser, p: Parser, turns: seq<Turn>, x: Parts)
    requires Inv(p) && Inv(r)
  {
    && (r.phase == PacketData ==> IsOpened(p, turns, x) && x.body == r.packet[..r.index])
    && (r.phase == PacketChecksum && r.index == 0 ==> IsEnded(p, turns, x) && x.body == r.packet[..r.len])
    && (r.phase == PacketChecksum && r.index != 0 ==>
          IsHalf(p, turns, x) && x.body == r.packet[..r.len] && x.high == r.chars.0)
  }

  /** One more character, from each phase of the parser. */
  lemma FromNone(r: Parser, c: bv8)
    requires Inv(r) && r.phase == PacketNone
    ensures var q := ProcessChar(r, c).0;
            if c == DOLLAR then q.phase == PacketData && q.index == 0 else q.phase == PacketNone
    ensures forall e :: e in ProcessChar(r, c).1 ==> !e.Accepted?
  {
    hide Sum, IsHex;
  }

  lemma FromData(r: Parser, c: bv8)
    requires Inv(r) && r.phase == PacketData
    ensures var q := ProcessChar(r, c).0;
            if c == HASH then
              q.phase == PacketChecksum && q.index == 0 && q.len == r.index && q.packet[..q.len] == r.packet[..r.index]
            else if c == DOLLAR || r.index == MAX_PACKET - 1 then q.phase == PacketNone
            else q.phase == PacketData && q.index == r.index + 1 && q.packet[..q.index] == r.packet[..r.index] + [c]
    ensures forall e :: e in ProcessChar(r, c).1 ==> !e.Accepted?
  {
    hide Sum, IsHex, Add, NoMarkers;
    StoredPrefix(r.packet, r.index, c);
    StoredPrefix(r.packet, r.index, 0);
  }

  lemma FromChecksum(r: Parser, c: bv8)
    requires Inv(r) && r.phase == PacketChecksum
    ensures var q := ProcessChar(r, c).0;
            if Gap([c]) then
              q.phase == PacketChecksum && q.index == r.index && q.len == r.len && q.packet == r.packet && q.chars == r.chars
            else if IsHex(c) && r.index == 0 then
              q.phase == PacketChecksum && q.index == 1 && q.len == r.len && q.packet == r.packet && q.chars.0 == c
            else q.phase == PacketNone
    ensures forall e :: e in ProcessChar(r, c).1 && e.Accepted? ==>
              r.index == 1 && IsHex(c) && Parsed(r.chars.0, c) == Sum(e.body) && e.body == r.packet[..r.len]
    ensures r.index == 1 && IsHex(c) && Parsed(r.chars.0, c) == Sum(r.packet[..r.len]) ==>
              Accepted(r.packet[..r.len]) in ProcessChar(r, c).1
  {
    hide Sum, IsHex, Parsed, NoMarkers;
    if IsHex(c) {
      HexRange(c);
    }
    assert [c][0] == c;
  }

  lemma CharsAt(turns: seq<Turn>)
    requires turns != []
    ensures Chars(turns) == Chars(turns[..|turns| - 1]) + [turns[|turns| - 1].c]
  {
  }

  lemma QuietAtInit(p: Parser, turns: seq<Turn>, n: nat)
    requires Inv(p) && turns != [] && n < |turns|
    ensures Quiet(p, turns, n) <==> Quiet(p, turns[..|turns| - 1], n)
  {
    assert turns[..|turns| - 1][..n] == turns[..n];
  }

  lemma QuietNow(p: Parser, turns: seq<Turn>)
    requires Inv(p) && Served(p, turns)
    ensures Quiet(p, turns, |turns|) <==> After(p, turns).0.phase == PacketNone
  {
    assert turns[..|turns|] == turns;
  }

  /** The turn that a run ends with. */
  lemma LastTurn(p: Parser, turns: seq<Turn>)
    requires Inv(p) && Served(p, turns) && turns != []
    ensures var init := turns[..|turns| - 1];
            var turn := turns[|turns| - 1];
            && Served(p, init)
            && var q := ProcessChar(After(p, init).0, turn.c).0;
               && MayLeave(q, turn) && After(p, turns).0 == Leave(q, turn)
  {
    hide ProcessChar, Inv;
  }

  lemma GapSnoc(g: Bytes, c: bv8)
    ensures Gap(g + [c]) <==> Gap(g) && Gap([c])
    ensures Gap([])
  {
    assert (g + [c])[|g|] == c && [c][0] == c;
    assert forall i :: 0 <= i < |g| ==> (g + [c])[i] == g[i];
  }

  /** Where the parser stands tells what it has heard since it was last between packets. */
  lemma {:induction false} Tells(p: Parser, turns: seq<Turn>) returns (x: Parts)
    requires Inv(p) && p.phase == PacketNone && Served(p, turns)
    ensures Stands(After(p, turns).0, p, turns, x)
    decreases |turns|
  {
    hide Inv, ProcessChar, Served, IsOpened, IsEnded, IsHalf, NoMarkers, Gap;
    x := Parts([], [], [], 0, []);
    if turns == [] {
      AfterNone(p);
    } else {
      var init := turns[..|turns| - 1];
      LastTurn(p, turns);
      x := Tells(p, init);
      x := TellsStep(p, turns, x);
    }
  }

  lemma BodyFits(r: Parser)
    requires Inv(r) && r.phase == PacketData
    ensures NoMarkers(r.packet[..r.index]) && r.index == |r.packet[..r.index]| < MAX_PACKET
  {
    hide Sum, NoMarkers;
  }

  lemma AfterNone(p: Parser)
    requires Inv(p)
    ensures After(p, []) == (p, [])
  {
  }

  lemma TellsStep(p: Parser, turns: seq<Turn>, x: Parts) returns (y: Parts)
    requires Inv(p) && turns != [] && Served(p, turns) && Served(p, turns[..|turns| - 1])
    requires Stands(After(p, turns[..|turns| - 1]).0, p, turns[..|turns| - 1], x)
    ensures Stands(After(p, turns).0, p, turns, y)
  {
    hide Inv, ProcessChar, Served, After, IsOpened, IsEnded, IsHalf, NoMarkers, Gap;
    var init := turns[..|turns| - 1];
    var c := turns[|turns| - 1].c;
    var r := After(p, init).0;
    LastTurn(p, turns);
    y := x;
    match r.phase
    case PacketNone =>
      FromNone(r, c);
      y := Parts(Chars(init), [], [], 0, []);
      if c == DOLLAR {
        Opening(p, turns);
      }
    case PacketData =>
      FromData(r, c);
      if After(p, turns).0.phase == PacketData {
        y := x.(body := x.body + [c]);
        BodyFits(After(p, turns).0);
        Storing(p, turns, x);
      } else if c == HASH {
        y := x.(gap := []);
        Ending(p, turns, x);
      }
    case PacketChecksum =>
      FromChecksum(r, c);
      GapSnoc([], c);
      if Gap([c]) {
        y := if r.index == 0 then x.(gap := x.gap + [c]) else x.(gap2 := x.gap2 + [c]);
        if r.index == 0 {
          Waiting(p, turns, x);
        } else {
          WaitingAgain(p, turns, x);
        }
      } else if IsHex(c) && r.index == 0 {
        y := x.(high := c, gap2 := []);
        Halving(p, turns, x);
      }
  }

  lemma Opening(p: Parser, turns: seq<Turn>)
    requires Inv(p) && turns != [] && Served(p, turns[..|turns| - 1]) && turns[|turns| - 1].c == DOLLAR
    requires After(p, turns[..|turns| - 1]).0.phase == PacketNone
    ensures IsOpened(p, turns, Parts(Chars(turns[..|turns| - 1]), [], [], 0, []))
  {
    hide Inv, Served, After;
    CharsAt(turns);
    QuietNow(p, turns[..|turns| - 1]);
    QuietAtInit(p, turns, |turns| - 1);
  }

  lemma Storing(p: Parser, turns: seq<Turn>, x: Parts)
    requires Inv(p) && turns != [] && IsOpened(p, turns[..|turns| - 1], x)
    requires NoMarkers(x.body + [turns[|turns| - 1].c]) && |x.body| + 1 < MAX_PACKET
    ensures IsOpened(p, turns, x.(body := x.body + [turns[|turns| - 1].c]))
  {
    hide Inv, Served, After, NoMarkers, Quiet;
    CharsAt(turns);
    QuietAtInit(p, turns, |x.before|);
  }

  lemma Ending(p: Parser, turns: seq<Turn>, x: Parts)
    requires Inv(p) && turns != [] && turns[|turns| - 1].c == HASH
    ensures IsEnded(p, turns, x.(gap := [])) <==> IsOpened(p, turns[..|turns| - 1], x)
  {
    hide Inv, Served, After, NoMarkers, Quiet;
    CharsAt(turns);
    var y := x.(gap := []);
    assert Ended(y) == Opened(x) + [HASH];
    if |x.before| < |turns| {
      QuietAtInit(p, turns, |x.before|);
    }
    Same(Chars(turns[..|turns| - 1]), Opened(x), HASH);
  }

  lemma Same(a: Bytes, b: Bytes, c: bv8)
    ensures a + [c] == b + [c] <==> a == b
  {
    if a + [c] == b + [c] {
      assert a == (a + [c])[..|a|] && b == (b + [c])[..|b|];
    }
  }

  lemma Waiting(p: Parser, turns: seq<Turn>, x: Parts)
    requires Inv(p) && turns != [] && Gap([turns[|turns| - 1].c])
    ensures IsEnded(p, turns, x.(gap := x.gap + [turns[|turns| - 1].c])) <==> IsEnded(p, turns[..|turns| - 1], x)
  {
    hide Inv, Served, After, NoMarkers, Quiet, Gap;
    var c := turns[|turns| - 1].c;
    var y := x.(gap := x.gap + [c]);
    CharsAt(turns);
    GapSnoc(x.gap, c);
    assert Ended(y) == Ended(x) + [c];
    if |x.before| < |turns| {
      QuietAtInit(p, turns, |x.before|);
    }
    Same(Chars(turns[..|turns| - 1]), Ended(x), c);
  }

  lemma Halving(p: Parser, turns: seq<Turn>, x: Parts)
    requires Inv(p) && turns != [] && IsHex(turns[|turns| - 1].c)
    ensures IsHalf(p, turns, x.(high := turns[|turns| - 1].c, gap2 := [])) <==> IsEnded(p, turns[..|turns| - 1], x)
  {
    hide Inv, Served, After, NoMarkers, Quiet, Gap, IsHex;
    var c := turns[|turns| - 1].c;
    var y := x.(high := c, gap2 := []);
    CharsAt(turns);
    GapSnoc([], c);
    assert Half(y) == Ended(x) + [c];
    if |x.before| < |turns| {
      QuietAtInit(p, turns, |x.before|);
    }
    Same(Chars(turns[..|turns| - 1]), Ended(x), c);
  }

  lemma WaitingAgain(p: Parser, turns: seq<Turn>, x: Parts)
    requires Inv(p) && turns != [] && Gap([turns[|turns| - 1].c])
    ensures IsHalf(p, turns, x.(gap2 := x.gap2 + [turns[|turns| - 1].c])) <==> IsHalf(p, turns[..|turns| - 1], x)
  {
    hide Inv, Served, After, NoMarkers, Quiet, Gap, IsHex;
    var c := turns[|turns| - 1].c;
    var y := x.(gap2 := x.gap2 + [c]);
    CharsAt(turns);
    GapSnoc(x.gap2, c);
    assert Half(y) == Half(x) + [c];
    if |x.before| < |turns| {
      QuietAtInit(p, turns, |x.before|);
    }
    Same(Chars(turns[..|turns| - 1]), Half(x), c);
  }

  /** And what it has heard tells where it stands. */
  lemma {:induction false} OpenedTells(p: Parser, turns: seq<Turn>, x: Parts)
    requires Inv(p) && Served(p, turns) && IsOpened(p, turns, x)
    ensures var r := After(p, turns).0;
            r.phase == PacketData && r.packet[..r.index] == x.body
    decreases |turns|
  {
    hide Inv, ProcessChar, Served, After, NoMarkers;
    var init := turns[..|turns| - 1];
    var c := turns[|turns| - 1].c;
    LastTurn(p, turns);
    CharsAt(turns);
    QuietAtInit(p, turns, |x.before|);
    if x.body == [] {
      assert Opened(x) == x.before + [DOLLAR];
      LastOf(Chars(init), c, x.before, DOLLAR);
      QuietNow(p, init);
      FromNone(After(p, init).0, c);
    } else {
      var last := x.body[|x.body| - 1];
      var y := x.(body := x.body[..|x.body| - 1]);
      assert Opened(x) == Opened(y) + [last];
      assert x.body == y.body + [last];
      LastOf(Chars(init), c, Opened(y), last);
      PartUnmarked(y.body, last);
      OpenedTells(p, init, y);
      BodyFits(After(p, init).0);
      FromData(After(p, init).0, c);
    }
  }

  lemma LastOf(a: Bytes, c: bv8, b: Bytes, d: bv8)
    requires a + [c] == b + [d]
    ensures a == b && c == d
  {
    assert c == (a + [c])[|a|] && d == (b + [d])[|b|];
    Same(a, b, c);
  }

  lemma {:induction false} EndedTells(p: Parser, turns: seq<Turn>, x: Parts)
    requires Inv(p) && Served(p, turns) && IsEnded(p, turns, x)
    ensures var r := After(p, turns).0;
            r.phase == PacketChecksum && r.index == 0 && r.packet[..r.len] == x.body
    decreases |turns|
  {
    hide Inv, ProcessChar, Served, After, NoMarkers, IsOpened, Gap;
    var init := turns[..|turns| - 1];
    var c := turns[|turns| - 1].c;
    LastTurn(p, turns);
    CharsAt(turns);
    if x.gap == [] {
      assert Ended(x) == Opened(x) + [HASH];
      LastOf(Chars(init), c, Opened(x), HASH);
      Ending(p, turns, x);
      OpenedTells(p, init, x);
      FromData(After(p, init).0, c);
    } else {
      var y := x.(gap := x.gap[..|x.gap| - 1]);
      assert x.gap == y.gap + [x.gap[|x.gap| - 1]];
      assert Ended(x) == Ended(y) + [x.gap[|x.gap| - 1]];
      LastOf(Chars(init), c, Ended(y), x.gap[|x.gap| - 1]);
      GapSnoc(y.gap, c);
      Waiting(p, turns, y);
      EndedTells(p, init, y);
      FromChecksum(After(p, init).0, c);
    }
  }

  lemma {:induction false} HalfTells(p: Parser, turns: seq<Turn>, x: Parts)
    requires Inv(p) && Served(p, turns) && IsHalf(p, turns, x)
    ensures var r := After(p, turns).0;
            r.phase == PacketChecksum && r.index == 1 && r.packet[..r.len] == x.body && r.chars.0 == x.high
    decreases |turns|
  {
    hide Inv, ProcessChar, Served, After, NoMarkers, IsEnded, Gap, IsHex;
    var init := turns[..|turns| - 1];
    var c := turns[|turns| - 1].c;
    LastTurn(p, turns);
    CharsAt(turns);
    if x.gap2 == [] {
      assert Half(x) == Ended(x) + [x.high];
      LastOf(Chars(init), c, Ended(x), x.high);
      HexIsNoGap(c);
      Halving(p, turns, x);
      EndedTells(p, init, x);
      FromChecksum(After(p, init).0, c);
    } else {
      var y := x.(gap2 := x.gap2[..|x.gap2| - 1]);
      assert x.gap2 == y.gap2 + [x.gap2[|x.gap2| - 1]];
      assert Half(x) == Half(y) + [x.gap2[|x.gap2| - 1]];
      LastOf(Chars(init), c, Half(y), x.gap2[|x.gap2| - 1]);
      GapSnoc(y.gap2, c);
      WaitingAgain(p, turns, y);
      HalfTells(p, init, y);
      FromChecksum(After(p, init).0, c);
    }
  }

  lemma HexIsNoGap(c: bv8)
    requires IsHex(c)
    ensures !Gap([c])
  {
    HexRange(c);
    hide IsHex;
    assert [c][0] == c;
  }

  /** Over every run, whatever handlers do in between: a packet is handed over exactly when the last
      character is the second digit of a frame that began between packets, whose body fits and has no
      marker in it, and the two digits read as the checksum of that body. Signals of the other side may
      come before either digit and change nothing. */
  lemma AcceptedExactly(p: Parser, turns: seq<Turn>, c: bv8, body: Bytes)
    requires Inv(p) && p.phase == PacketNone && Served(p, turns)
    ensures Accepted(body) in ProcessChar(After(p, turns).0, c).1 <==>
            exists x: Parts :: IsHalf(p, turns, x) && x.body == body && IsHex(c) && Parsed(x.high, c) == Sum(body)
  {
    hide Inv, ProcessChar, Served, After, IsOpened, IsEnded, IsHalf, IsHex, Parsed, Sum;
    var r := After(p, turns).0;
    if Accepted(body) in ProcessChar(r, c).1 {
      match r.phase {
        case PacketNone => FromNone(r, c);
        case PacketData => FromData(r, c);
        case PacketChecksum =>
          FromChecksum(r, c);
          var x := Tells(p, turns);
          assert IsHalf(p, turns, x);
      }
    }
    forall x: Parts | IsHalf(p, turns, x) && x.body == body && IsHex(c) && Parsed(x.high, c) == Sum(body)
      ensures Accepted(body) in ProcessChar(r, c).1 {
      HalfTells(p, turns, x);
      FromChecksum(r, c);
    }
  }

  /** A frame whatever its digits: acknowledged and handed over if they read as the checksum of the
      body, and otherwise refused. */
  lemma FrameAnswered(p: Parser, body: Bytes, high: bv8, low: bv8)
    requires Inv(p) && p.phase == PacketNone && NoMarkers(body) && |body| < MAX_PACKET && IsHex(high) && IsHex(low)
    ensures var r := Feed(p, [DOLLAR] + body + [HASH, high, low]);
            && r.0.phase == PacketNone
            && (r.0.awaitingAck <==> p.awaitingAck && Parsed(high, low) == Sum(body))
            && r.1 == if Parsed(high, low) == Sum(body) then [Ack, Accepted(body)] else [ResetError, Nack]
  {
    hide ProcessChar, Feed, Sum, Parsed, IsHex, NoMarkers;
    FeedBody(p, body);
    HexRange(high);
    HexRange(low);
    var a := [DOLLAR] + body;
    var b := a + [HASH];
    var d := b + [high];
    assert a + [HASH, high, low] == d + [low];
    FeedOne(p, a, HASH);
    BodyEnds(Feed(p, a).0, body);
    FeedOne(p, b, high);
    FirstDigit(Feed(p, b).0, high);
    FeedOne(p, d, low);
    SecondDigit(Feed(p, d).0, low);
    BodyAwaits(p, body);
    DataAwaits(Feed(p, a).0, HASH);
  }

  lemma SecondDigit(p: Parser, c: bv8)
    requires Inv(p) && p.phase == PacketChecksum && p.index == 1 && IsHex(c)
    ensures ProcessChar(p, c).0.phase == PacketNone
    ensures ProcessChar(p, c).0.awaitingAck <==> p.awaitingAck && Parsed(p.chars.0, c) == p.checksum
    ensures ProcessChar(p, c).1 ==
            if Parsed(p.chars.0, c) == p.checksum then [Ack, Accepted(p.packet[..p.len])] else [ResetError, Nack]
  {
    HexRange(c);
    hide Sum, IsHex, Parsed;
  }

  lemma DataAwaits(r: Parser, c: bv8)
    requires Inv(r) && r.phase == PacketData && c != DOLLAR && (c == HASH || r.index < MAX_PACKET - 1)
    ensures ProcessChar(r, c).0.awaitingAck == r.awaitingAck
  {
    hide Sum, Add;
  }

  /** Nothing in a body is taken for an acknowledgement. */
  lemma {:induction false} BodyAwaits(p: Parser, body: Bytes)
    requires Inv(p) && p.phase == PacketNone && NoMarkers(body) && |body| < MAX_PACKET
    ensures Feed(p, [DOLLAR] + body).0.awaitingAck == p.awaitingAck
    decreases |body|
  {
    hide ProcessChar, Feed, Sum, NoMarkers;
    if body == [] {
      assert [DOLLAR] + body == [] + [DOLLAR];
      FeedOne(p, [], DOLLAR);
      FeedNone(p);
      Opens(p);
    } else {
      var init := body[..|body| - 1];
      var c := body[|body| - 1];
      assert [DOLLAR] + body == ([DOLLAR] + init) + [c];
      assert body == init + [c];
      PartUnmarked(init, c);
      FeedBody(p, init);
      BodyAwaits(p, init);
      FeedOne(p, [DOLLAR] + init, c);
      DataAwaits(Feed(p, [DOLLAR] + init).0, c);
    }
  }

  /** Between packets, and no acknowledgement awaited. */
  predicate Idle(r: Parser) {
    r.phase == PacketNone && !r.awaitingAck
  }

  /** What cannot be a frame is refused where that shows: a marker in the body, a body that does not fit,
      something else in place of a digit; the parser is idle again. */
  lemma BrokenFrames(p: Parser, body: Bytes, c: bv8)
    requires Inv(p) && p.phase == PacketNone && NoMarkers(body)
    ensures |body| < MAX_PACKET ==>
              Feed(p, [DOLLAR] + body + [DOLLAR]).1 == [ResetError] && Idle(Feed(p, [DOLLAR] + body + [DOLLAR]).0)
    ensures |body| == MAX_PACKET ==> Feed(p, [DOLLAR] + body).1 == [ResetError] && Idle(Feed(p, [DOLLAR] + body).0)
    ensures |body| < MAX_PACKET && !IsHex(c) && !Gap([c]) ==>
              Feed(p, [DOLLAR] + body + [HASH, c]).1 == [ResetError] && Idle(Feed(p, [DOLLAR] + body + [HASH, c]).0)
  {
    hide ProcessChar, Feed, Sum, IsHex, NoMarkers, Gap;
    if |body| < MAX_PACKET {
      FeedBody(p, body);
      var a := [DOLLAR] + body;
      FeedOne(p, a, DOLLAR);
      Interrupted(Feed(p, a).0, DOLLAR);
      FeedOne(p, a, HASH);
      BodyEnds(Feed(p, a).0, body);
      assert a + [HASH, c] == (a + [HASH]) + [c];
      FeedOne(p, a + [HASH], c);
      if !IsHex(c) && !Gap([c]) {
        NoDigit(Feed(p, a + [HASH]).0, c);
      }
    } else if |body| == MAX_PACKET {
      var init := body[..|body| - 1];
      var last := body[|body| - 1];
      assert body == init + [last];
      PartUnmarked(init, last);
      FeedBody(p, init);
      assert [DOLLAR] + body == ([DOLLAR] + init) + [last];
      FeedOne(p, [DOLLAR] + init, last);
      Interrupted(Feed(p, [DOLLAR] + init).0, last);
    }
  }

  lemma Interrupted(r: Parser, c: bv8)
    requires Inv(r) && r.phase == PacketData && c != HASH && (c == DOLLAR || r.index == MAX_PACKET - 1)
    ensures ProcessChar(r, c).1 == [ResetError] && Idle(ProcessChar(r, c).0)
  {
    hide Sum;
  }

  lemma NoDigit(r: Parser, c: bv8)
    requires Inv(r) && r.phase == PacketChecksum && !IsHex(c) && !Gap([c])
    ensures ProcessChar(r, c).1 == [ResetError] && Idle(ProcessChar(r, c).0)
  {
    assert [c][0] == c;
    hide Sum, IsHex;
  }

  // ----- between packets

  function Count(s: Bytes, c: bv8): nat {
    if s == [] then 0 else Count(s[..|s| - 1], c) + if s[|s| - 1] == c then 1 else 0
  }

  function CountEvents(s: seq<Event>, e: Event): nat {
    if s == [] then 0 else CountEvents(s[..|s| - 1], e) + if s[|s| - 1] == e then 1 else 0
  }

  /** The characters before the first `+`. */
  function Unacknowledged(s: Bytes): Bytes {
    if s == [] then []
    else
      var init := s[..|s| - 1];
      if PLUS in s then Unacknowledged(init) else s
  }

  /** While no packet begins: one interrupt for each end of text, one retransmission for each `-` before
      the first `+` if an acknowledgement was awaited, and nothing else; a `+` ends the waiting. */
  lemma {:induction false} QuietStream(p: Parser, s: Bytes)
    requires Inv(p) && p.phase == PacketNone && DOLLAR !in s
    ensures var r := Feed(p, s);
            && r.0.phase == PacketNone && (r.0.awaitingAck <==> p.awaitingAck && PLUS !in s)
            && CountEvents(r.1, Interrupt) == Count(s, END_TEXT)
            && CountEvents(r.1, Retransmit) == (if p.awaitingAck then Count(Unacknowledged(s), MINUS) else 0)
            && |r.1| == CountEvents(r.1, Interrupt) + CountEvents(r.1, Retransmit)
    decreases |s|
  {
    hide ProcessChar, Inv, Feed, Count, CountEvents, Unacknowledged;
    NothingCounted();
    if s == [] {
      FeedNone(p);
    } else {
      var init := s[..|s| - 1];
      var c := s[|s| - 1];
      assert s == init + [c];
      QuietStream(p, init);
      FeedOne(p, init, c);
      var r := Feed(p, init);
      QuietChar(r.0, c);
      EventsSnoc(r.1, ProcessChar(r.0, c).1, Interrupt);
      EventsSnoc(r.1, ProcessChar(r.0, c).1, Retransmit);
      CountSnoc(init, c, END_TEXT);
      CountSnoc(init, c, MINUS);
      UnacknowledgedStep(init, c);
    }
  }

  lemma NothingCounted()
    ensures forall c :: Count([], c) == 0
    ensures forall e :: CountEvents([], e) == 0
    ensures Unacknowledged([]) == []
  {
  }

  lemma CountSnoc(s: Bytes, c: bv8, x: bv8)
    ensures Count(s + [c], x) == Count(s, x) + if c == x then 1 else 0
  {
    assert (s + [c])[..|s|] == s;
  }

  lemma EventsSnoc(s: seq<Event>, more: seq<Event>, e: Event)
    requires |more| <= 1
    ensures CountEvents(s + more, e) == CountEvents(s, e) + if more == [e] then 1 else 0
    ensures |s + more| == |s| + |more|
  {
    if more == [] {
      assert s + more == s;
    } else {
      assert (s + more)[..|s|] == s;
    }
  }

  lemma UnacknowledgedStep(s: Bytes, c: bv8)
    ensures Unacknowledged(s + [c]) == if PLUS in s || c == PLUS then Unacknowledged(s) else s + [c]
    ensures PLUS !in s ==> Unacknowledged(s) == s
  {
    assert (s + [c])[..|s|] == s;
  }

  lemma QuietChar(p: Parser, c: bv8)
    requires Inv(p) && p.phase == PacketNone && c != DOLLAR
    ensures var r := ProcessChar(p, c);
            && r.0.phase == PacketNone && (r.0.awaitingAck <==> p.awaitingAck && c != PLUS)
            && r.1 == if c == END_TEXT then [Interrupt] else if c == MINUS && p.awaitingAck then [Retransmit] else []
  {
    hide Sum, IsHex;
  }

  // ----- escaping

  /** An escaped byte has the bit of value 32 turned over. */
  lemma FlipTurnsOneBit(b: bv8)
    ensures Value(Flip(b)) == if Value(b) / 32 % 2 == 0 then Value(b) + 32 else Value(b) - 32
  {
  }

  /** Escaping costs one byte for each of the four special characters and changes nothing else. */
  lemma {:induction false} EscapedExactly(data: Bytes)
    ensures |Escaped(data)| == |data| + Count(data, ESCAPE) + Count(data, HASH) + Count(data, DOLLAR) + Count(data, STAR)
    ensures (forall b :: b in data ==> !Special(b)) ==> Escaped(data) == data
    ensures STAR !in Escaped(data)
  {
    hide Flip, Count, Special, Escaped;
    if data == [] {
      NothingCounted();
      NoneEscaped();
    } else {
      var init := data[..|data| - 1];
      var b := data[|data| - 1];
      assert data == init + [b];
      EscapedExactly(init);
      EscapedLast(init, b);
      CountSnoc(init, b, ESCAPE);
      CountSnoc(init, b, HASH);
      CountSnoc(init, b, DOLLAR);
      CountSnoc(init, b, STAR);
    }
  }

  lemma NoneEscaped()
    ensures Escaped([]) == []
  {
  }

  lemma EscapedLast(init: Bytes, b: bv8)
    ensures Escaped(init + [b]) == Escaped(init) + if Special(b) then [ESCAPE, Flip(b)] else [b]
    ensures Special(b) <==> b == ESCAPE || b == HASH || b == DOLLAR || b == STAR
    ensures STAR !in if Special(b) then [ESCAPE, Flip(b)] else [b]
  {
    FlipFacts(b);
    hide Flip;
    assert (init + [b])[..|init|] == init;
  }
}
