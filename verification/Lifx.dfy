/** The packets of the LIFX bulbs: the fields, their setters, the little-endian writer of
    `LifxMessage::sendMessage`, and a reader that the writer is proved against. */
module Lifx {
  import opened Options

  type Byte = x: int | 0 <= x < 256

  const HEADER_SIZE := 36
  const DATA_CAPACITY := 128
  const ACK_BIT: bv8 := 2
  const RES_BIT: bv8 := 1
  const GET_SERVICE := 0x0002
  const GET_POWER := 0x0014
  const SET_POWER := 0x0015

  function Pow256(k: nat): (r: nat)
    ensures r > 0
  {
    if k == 0 then 1 else 256 * Pow256(k - 1)
  }

  // --------------------------------------------------------- byte order

  /** The `k` low bytes of a number, least significant first. */
  function LittleEndian(x: nat, k: nat): (r: seq<Byte>)
    ensures |r| == k
  {
    if k == 0 then [] else [x % 256] + LittleEndian(x / 256, k - 1)
  }

  function Value(bytes: seq<Byte>): nat {
    if bytes == [] then 0 else bytes[0] + 256 * Value(bytes[1..])
  }

  /** A number that fits in `k` bytes is read back from them. */
  lemma {:induction false} LittleEndianRoundTrip(x: nat, k: nat)
    requires x < Pow256(k)
    ensures Value(LittleEndian(x, k)) == x
  {
    if k > 0 {
      assert x / 256 < Pow256(k - 1);
      LittleEndianRoundTrip(x / 256, k - 1);
      assert LittleEndian(x, k)[1..] == LittleEndian(x / 256, k - 1);
    }
  }

  /** The byte in place `i` is the digit of that place in base 256. */
  lemma {:induction false} LittleEndianDigit(x: nat, k: nat, i: nat)
    requires i < k
    ensures LittleEndian(x, k)[i] as int == x / Pow256(i) % 256
  {
    if i > 0 {
      LittleEndianDigit(x / 256, k - 1, i - 1);
      DivTwice(x, Pow256(i - 1));
    }
  }

  lemma DivTwice(x: nat, p: nat)
    requires p > 0
    ensures x / 256 / p == x / (256 * p)
  {
    var q, r := x / 256, x % 256;
    var a, b := q / p, q % p;
    assert x == 256 * (p * a + b) + r;
    assert x == (256 * p) * a + (256 * b + r) by {
      assert 256 * (p * a) == (256 * p) * a;
    }
    QuotientIs(x, 256 * p, a, 256 * b + r);
  }

  lemma QuotientIs(x: nat, d: nat, q: nat, r: nat)
    requires x == d * q + r && r < d
    ensures x / d == q
  {
    var e := x / d - q;
    assert d * e == r - x % d;
    NoSmallMultiple(d, e);
  }

  lemma NoSmallMultiple(d: int, e: int)
    requires -d < d * e < d
    ensures e == 0
  {
  }

  function LowByte(w: nat): Byte { w % 256 }

  function HighByte(w: nat): Byte
    requires w < 0x1_0000
  {
    w / 256
  }

  // ------------------------------------------------------------- packets

  datatype Packet = Packet(
    size: nat,
    protocol: nat,
    source: nat,
    bulbAddress: seq<Byte>,
    bAddrReserved: nat,
    site: seq<Byte>,
    ackResBits: bv8,
    sequence: Byte,
    timestamp: nat,
    packetType: nat,
    pckReserved: nat,
    data: seq<Byte>,
    dataSize: nat)

  const NO_ADDRESS: seq<Byte> := [127, 127, 127, 127, 127, 127]

  function Fresh(): Packet {
    Packet(36, 0x3400, 0, NO_ADDRESS, 0, NO_ADDRESS, 3, 0, 0, GET_SERVICE, 0, seq(DATA_CAPACITY, _ => 0), 0)
  }

  /** Every field fits its width. */
  ghost predicate Fits(p: Packet) {
    && p.size < Pow256(2) && p.protocol < Pow256(2) && p.source < Pow256(4)
    && |p.bulbAddress| == 6 && p.bAddrReserved < Pow256(2) && |p.site| == 6
    && p.timestamp < Pow256(8) && p.packetType < Pow256(2) && p.pckReserved < Pow256(2)
    && |p.data| == DATA_CAPACITY
  }

  ghost predicate Sized(p: Packet) {
    p.dataSize <= DATA_CAPACITY && p.size == HEADER_SIZE + p.dataSize
  }

  // -------------------------------------------------------------- layout

  const WIDTHS: seq<nat> := [2, 2, 4, 6, 2, 6, 1, 1, 8, 2, 2]

  /** The header fields in the order in which they are written. */
  function Fields(p: Packet): seq<seq<Byte>> {
    [LittleEndian(p.size, 2), LittleEndian(p.protocol, 2), LittleEndian(p.source, 4), p.bulbAddress,
     LittleEndian(p.bAddrReserved, 2), p.site, [p.ackResBits as int], [p.sequence],
     LittleEndian(p.timestamp, 8), LittleEndian(p.packetType, 2), LittleEndian(p.pckReserved, 2)]
  }

  function Flatten(fields: seq<seq<Byte>>): seq<Byte> {
    if fields == [] then [] else fields[0] + Flatten(fields[1..])
  }

  function Encode(p: Packet): seq<Byte>
    requires p.dataSize <= |p.data|
  {
    Flatten(Fields(p)) + p.data[..p.dataSize]
  }

  function Total(widths: seq<nat>): nat {
    if widths == [] then 0 else widths[0] + Total(widths[1..])
  }

  /** Cuts fields of the given widths off the front; the last part is what remains. */
  function Split(bytes: seq<Byte>, widths: seq<nat>): (r: seq<seq<Byte>>)
    requires Total(widths) <= |bytes|
    ensures |r| == |widths| + 1
    decreases |widths|
  {
    if widths == [] then [bytes] else [bytes[..widths[0]]] + Split(bytes[widths[0]..], widths[1..])
  }

  ghost predicate HaveWidths(fields: seq<seq<Byte>>, widths: seq<nat>) {
    |fields| == |widths| && forall i :: 0 <= i < |fields| ==> |fields[i]| == widths[i]
  }

  lemma {:induction false} LengthOfFlatten(fields: seq<seq<Byte>>, widths: seq<nat>)
    requires HaveWidths(fields, widths)
    ensures |Flatten(fields)| == Total(widths)
    decreases |fields|
  {
    if fields != [] {
      LengthOfFlatten(fields[1..], widths[1..]);
    }
  }

  lemma {:induction false} SplitOfFlatten(fields: seq<seq<Byte>>, widths: seq<nat>, rest: seq<Byte>)
    requires HaveWidths(fields, widths)
    ensures |Flatten(fields)| == Total(widths)
    ensures Split(Flatten(fields) + rest, widths) == fields + [rest]
    decreases |fields|
  {
    LengthOfFlatten(fields, widths);
    if fields == [] {
      assert [] + rest == rest;
    } else {
      var bytes := Flatten(fields) + rest;
      SplitOfFlatten(fields[1..], widths[1..], rest);
      assert bytes[..widths[0]] == fields[0];
      assert bytes[widths[0]..] == Flatten(fields[1..]) + rest;
      assert [fields[0]] + (fields[1..] + [rest]) == fields + [rest];
    }
  }

  /** The packet whose header fields and data these are. */
  function FromParts(f: seq<seq<Byte>>): Packet
    requires |f| == 12 && |f[6]| == 1 && |f[7]| == 1
  {
    Packet(Value(f[0]), Value(f[1]), Value(f[2]), f[3], Value(f[4]), f[5], f[6][0] as bv8, f[7][0],
           Value(f[8]), Value(f[9]), Value(f[10]), f[11], |f[11]|)
  }

  /** What a receiver that knows the layout reads. */
  function Decode(bytes: seq<Byte>): Option<Packet> {
    if |bytes| < Total(WIDTHS) then None
    else
      var f := Split(bytes, WIDTHS);
      if |f[6]| == 1 && |f[7]| == 1 then Some(FromParts(f)) else None
  }

  lemma FieldWidths(p: Packet)
    requires Fits(p)
    ensures HaveWidths(Fields(p), WIDTHS)
  {
  }

  lemma HeaderSize()
    ensures Total(WIDTHS) == HEADER_SIZE
  {
    assert WIDTHS[1..] == [2, 4, 6, 2, 6, 1, 1, 8, 2, 2];
    assert WIDTHS[1..][1..] == [4, 6, 2, 6, 1, 1, 8, 2, 2];
    assert WIDTHS[1..][1..][1..] == [6, 2, 6, 1, 1, 8, 2, 2];
    assert Total([1, 1, 8, 2, 2]) == 14 by { TotalOfFive(); }
    assert Total([6, 2, 6, 1, 1, 8, 2, 2]) == 28 by {
      assert [6, 2, 6, 1, 1, 8, 2, 2][1..] == [2, 6, 1, 1, 8, 2, 2];
      assert [2, 6, 1, 1, 8, 2, 2][1..] == [6, 1, 1, 8, 2, 2];
      assert [6, 1, 1, 8, 2, 2][1..] == [1, 1, 8, 2, 2];
    }
  }

  lemma TotalOfFive()
    ensures Total([1, 1, 8, 2, 2]) == 14
  {
    assert [1, 1, 8, 2, 2][1..] == [1, 8, 2, 2];
    assert [1, 8, 2, 2][1..] == [8, 2, 2];
    assert [8, 2, 2][1..] == [2, 2];
    assert [2, 2][1..] == [2];
  }

  lemma BitsRoundTrip(x: bv8)
    ensures 0 <= x as int < 256 && (x as int) as bv8 == x
  {
  }

  /** The size field is the number of bytes written. */
  lemma SizeIsLength(p: Packet)
    requires Fits(p) && Sized(p)
    ensures |Encode(p)| == p.size
  {
    FieldWidths(p);
    LengthOfFlatten(Fields(p), WIDTHS);
    HeaderSize();
  }

  lemma NumbersRoundTrip(p: Packet)
    requires Fits(p)
    ensures Value(LittleEndian(p.size, 2)) == p.size && Value(LittleEndian(p.protocol, 2)) == p.protocol
    ensures Value(LittleEndian(p.source, 4)) == p.source && Value(LittleEndian(p.bAddrReserved, 2)) == p.bAddrReserved
    ensures Value(LittleEndian(p.timestamp, 8)) == p.timestamp && Value(LittleEndian(p.packetType, 2)) == p.packetType
    ensures Value(LittleEndian(p.pckReserved, 2)) == p.pckReserved
  {
    LittleEndianRoundTrip(p.size, 2);
    LittleEndianRoundTrip(p.protocol, 2);
    LittleEndianRoundTrip(p.source, 4);
    LittleEndianRoundTrip(p.bAddrReserved, 2);
    LittleEndianRoundTrip(p.timestamp, 8);
    LittleEndianRoundTrip(p.packetType, 2);
    LittleEndianRoundTrip(p.pckReserved, 2);
  }

  lemma PartsRoundTrip(p: Packet, data: seq<Byte>)
    requires Fits(p)
    ensures var f := Fields(p) + [data];
            |f[6]| == 1 && |f[7]| == 1 && FromParts(f) == p.(data := data, dataSize := |data|)
  {
    var f := Fields(p) + [data];
    NumbersRoundTrip(p);
    BitsRoundTrip(p.ackResBits);
    assert f[3] == p.bulbAddress && f[5] == p.site && f[6] == [p.ackResBits as int] && f[7] == [p.sequence] && f[11]
        == data;
    assert f[0] == LittleEndian(p.size, 2) && f[1] == LittleEndian(p.protocol, 2) && f[2] == LittleEndian(p.source, 4);
    assert f[4] == LittleEndian(p.bAddrReserved, 2) && f[8] == LittleEndian(p.timestamp, 8);
    assert f[9] == LittleEndian(p.packetType, 2) && f[10] == LittleEndian(p.pckReserved, 2);
  }

  /** Every field, and the data that counts, is read back. */
  lemma PacketRoundTrip(p: Packet)
    requires Fits(p) && Sized(p)
    ensures Decode(Encode(p)) == Some(p.(data := p.data[..p.dataSize]))
  {
    var data := p.data[..p.dataSize];
    FieldWidths(p);
    SplitOfFlatten(Fields(p), WIDTHS, data);
    PartsRoundTrip(p, data);
  }

  // ------------------------------------------------------------- setters

  datatype Setter =
    | SetSource(source: nat)
    | SetType(packetType: nat)
    | SetData(bytes: seq<Byte>)
    | AcknowledgeRequired(ack: bool)
    | ResponseRequired(res: bool)

  /** The widths of the parameters, and the capacity that `setData` relies on. */
  ghost predicate Allowed(x: Setter) {
    match x
    case SetSource(source) => source < Pow256(4)
    case SetType(packetType) => packetType < Pow256(2)
    case SetData(bytes) => |bytes| <= DATA_CAPACITY
    case _ => true
  }

  function WithBit(bits: bv8, bit: bv8, on: bool): bv8 {
    if on then bits | bit else bits & !bit
  }

  /** What lies behind the new data stays in the buffer. */
  function WithData(p: Packet, bytes: seq<Byte>): Packet
    requires |bytes| <= |p.data|
  {
    p.(size := HEADER_SIZE + |bytes|, dataSize := |bytes|, data := bytes + p.data[|bytes|..])
  }

  function Set(p: Packet, x: Setter): Packet
    requires |p.data| == DATA_CAPACITY && Allowed(x)
  {
    match x
    case SetSource(source) => p.(source := source)
    case SetType(packetType) => p.(packetType := packetType)
    case SetData(bytes) => WithData(p, bytes)
    case AcknowledgeRequired(ack) => p.(ackResBits := WithBit(p.ackResBits, ACK_BIT, ack))
    case ResponseRequired(res) => p.(ackResBits := WithBit(p.ackResBits, RES_BIT, res))
  }

  function SetAll(p: Packet, xs: seq<Setter>): (r: Packet)
    requires p.dataSize <= |p.data| == DATA_CAPACITY && forall x :: x in xs ==> Allowed(x)
    ensures r.dataSize <= |r.data| == DATA_CAPACITY
  {
    if xs == [] then p else Set(SetAll(p, xs[..|xs| - 1]), xs[|xs| - 1])
  }

  /** What a packet says to the bulb, apart from the fields no setter touches. */
  datatype Request = Request(source: nat, packetType: nat, data: seq<Byte>, ack: bool, res: bool)

  function Overlay(r: Request, x: Setter): Request {
    match x
    case SetSource(source) => r.(source := source)
    case SetType(packetType) => r.(packetType := packetType)
    case SetData(bytes) => r.(data := bytes)
    case AcknowledgeRequired(ack) => r.(ack := ack)
    case ResponseRequired(res) => r.(res := res)
  }

  /** The last call of each setter wins. */
  function LastCalls(xs: seq<Setter>): Request {
    if xs == [] then Request(0, GET_SERVICE, [], true, true)
    else Overlay(LastCalls(xs[..|xs| - 1]), xs[|xs| - 1])
  }

  ghost predicate Flags(bits: bv8, ack: bool, res: bool) {
    (bits & ACK_BIT != 0 <==> ack) && (bits & RES_BIT != 0 <==> res) && bits & !(ACK_BIT | RES_BIT) == 0
  }

  ghost predicate Says(p: Packet, r: Request) {
    && p.protocol == 0x3400 && p.bulbAddress == p.site == [127, 127, 127, 127, 127, 127]
    && p.bAddrReserved == 0 && p.sequence == 0 && p.pckReserved == 0
    && p.source == r.source && p.packetType == r.packetType
    && p.dataSize <= |p.data| && p.data[..p.dataSize] == r.data
    && Flags(p.ackResBits, r.ack, r.res)
  }

  /** A flag setter decides its own bit and leaves the seven others. */
  lemma OwnBitOnly(bits: bv8, bit: bv8, on: bool)
    requires bit == ACK_BIT || bit == RES_BIT
    ensures WithBit(bits, bit, on) & bit != 0 <==> on
    ensures WithBit(bits, bit, on) & !bit == bits & !bit
  {
  }

  lemma FlagsCommute(bits: bv8, ack: bool, res: bool)
    ensures WithBit(WithBit(bits, ACK_BIT, ack), RES_BIT, res) == WithBit(WithBit(bits, RES_BIT, res), ACK_BIT, ack)
    ensures WithBit(WithBit(bits, ACK_BIT, ack), ACK_BIT, res) == WithBit(bits, ACK_BIT, res)
    ensures WithBit(WithBit(bits, RES_BIT, ack), RES_BIT, res) == WithBit(bits, RES_BIT, res)
  {
  }

  lemma FlagSetters(bits: bv8, ack: bool, res: bool, on: bool)
    requires Flags(bits, ack, res)
    ensures Flags(WithBit(bits, ACK_BIT, on), on, res)
    ensures Flags(WithBit(bits, RES_BIT, on), ack, on)
  {
  }

  lemma PowersOf256()
    ensures Pow256(2) == 0x1_0000 && Pow256(4) == 0x1_0000_0000
  {
    assert Pow256(1) == 256;
    assert Pow256(3) == 0x100_0000;
  }

  lemma SetterKeepsShape(p: Packet, x: Setter)
    requires Fits(p) && Sized(p) && Allowed(x)
    ensures Fits(Set(p, x)) && Sized(Set(p, x))
  {
    PowersOf256();
  }

  lemma DataSays(p: Packet, bytes: seq<Byte>, r: Request)
    requires |bytes| <= |p.data| && Says(p, r)
    ensures Says(WithData(p, bytes), r.(data := bytes))
  {
    assert (bytes + p.data[|bytes|..])[..|bytes|] == bytes;
  }

  lemma FlagsSay(p: Packet, on: bool, r: Request)
    requires Says(p, r)
    ensures Says(p.(ackResBits := WithBit(p.ackResBits, ACK_BIT, on)), r.(ack := on))
    ensures Says(p.(ackResBits := WithBit(p.ackResBits, RES_BIT, on)), r.(res := on))
  {
    FlagSetters(p.ackResBits, r.ack, r.res, on);
  }

  lemma SetterSays(p: Packet, x: Setter, r: Request)
    requires |p.data| == DATA_CAPACITY && Allowed(x) && Says(p, r)
    ensures Says(Set(p, x), Overlay(r, x))
  {
    match x
    case AcknowledgeRequired(ack) => FlagsSay(p, ack, r);
    case ResponseRequired(res) => FlagsSay(p, res, r);
    case SetData(bytes) => DataSays(p, bytes, r);
    case SetSource(_) =>
    case SetType(_) =>
  }

  lemma FreshIsGood()
    ensures Fits(Fresh()) && Sized(Fresh()) && Says(Fresh(), LastCalls([]))
  {
    PowersOf256();
    assert Pow256(8) > 0;
  }

  /** After any calls of the setters the packet keeps its size and says what the last ones asked for. */
  lemma {:induction false} SettersGiveLastCalls(xs: seq<Setter>)
    requires forall x :: x in xs ==> Allowed(x)
    ensures Fits(SetAll(Fresh(), xs)) && Sized(SetAll(Fresh(), xs)) && Says(SetAll(Fresh(), xs), LastCalls(xs))
  {
    if xs == [] {
      FreshIsGood();
    } else {
      var front, last := xs[..|xs| - 1], xs[|xs| - 1];
      SettersGiveLastCalls(front);
      SetterKeepsShape(SetAll(Fresh(), front), last);
      SetterSays(SetAll(Fresh(), front), last, LastCalls(front));
    }
  }

  /** A datagram has the length that it announces, and reading it gives the time and the
      request. */
  ghost predicate Carries(bytes: seq<Byte>, now: nat, r: Request) {
    var read := Decode(bytes);
    && read.Some?
    && read.value.size == |bytes| == HEADER_SIZE + |r.data|
    && read.value.timestamp == now && read.value.data == r.data && Says(read.value, r)
  }

  lemma EncodeCarries(p: Packet, r: Request)
    requires Fits(p) && Sized(p) && Says(p, r)
    ensures Carries(Encode(p), p.timestamp, r)
  {
    PacketRoundTrip(p);
    SizeIsLength(p);
    SaysWithoutSlack(p, r);
  }

  lemma SaysWithoutSlack(p: Packet, r: Request)
    requires Says(p, r)
    ensures Says(p.(data := p.data[..p.dataSize]), r)
  {
    var q := p.(data := p.data[..p.dataSize]);
    assert q.data[..q.dataSize] == q.data;
  }

  /** From setter calls to the wire and back: the datagram carries what the last call of each
      setter asked for. */
  lemma WireSaysLastCalls(xs: seq<Setter>, now: nat)
    requires forall x :: x in xs ==> Allowed(x)
    requires now < Pow256(8)
    ensures Carries(Encode(SetAll(Fresh(), xs).(timestamp := now)), now, LastCalls(xs))
  {
    SettersGiveLastCalls(xs);
    EncodeCarries(SetAll(Fresh(), xs).(timestamp := now), LastCalls(xs));
  }

  /** The power level, given by its low and its high byte, is read back. */
  lemma PowerRoundTrip(power: nat)
    requires power < 0x1_0000
    ensures Value([LowByte(power), HighByte(power)]) == power
  {
    assert [LowByte(power), HighByte(power)][1..] == [HighByte(power)];
    assert [HighByte(power)][1..] == [];
    assert Value([HighByte(power)]) == HighByte(power);
  }

  /** From `SetPowerMessage(power)` to the wire and back. */
  lemma PowerOnWire(p: Packet, power: nat)
    requires power < 0x1_0000 && Fits(p) && Sized(p)
    requires Says(p, Request(0, SET_POWER, [LowByte(power), HighByte(power)], false, true))
    ensures |Encode(p)| == 38 && Decode(Encode(p)).Some?
    ensures Decode(Encode(p)).value.packetType == SET_POWER && Value(Decode(Encode(p)).value.data) == power
  {
    EncodeCarries(p, Request(0, SET_POWER, [LowByte(power), HighByte(power)], false, true));
    PowerRoundTrip(power);
  }

  // ------------------------------------------------------------- the writer

  /** The fields of the header and then the data. */
  function Parts(p: Packet): seq<seq<Byte>>
    requires p.dataSize <= |p.data|
  {
    Fields(p) + [p.data[..p.dataSize]]
  }

  lemma {:induction false} FlattenOfSnoc(fields: seq<seq<Byte>>, last: seq<Byte>)
    ensures Flatten(fields + [last]) == Flatten(fields) + last
    decreases |fields|
  {
    if fields == [] {
      assert [last][1..] == [] && last + [] == last && [] + [last] == [last];
    } else {
      assert (fields + [last])[1..] == fields[1..] + [last];
      FlattenOfSnoc(fields[1..], last);
    }
  }

  lemma PartsOfPacket(p: Packet)
    requires p.dataSize <= |p.data|
    ensures Flatten(Parts(p)) == Encode(p) && |Parts(p)| == 12
    ensures Parts(p)[0] == LittleEndian(p.size, 2) && Parts(p)[1] == LittleEndian(p.protocol, 2)
    ensures Parts(p)[2] == LittleEndian(p.source, 4) && Parts(p)[3] == p.bulbAddress
    ensures Parts(p)[4] == LittleEndian(p.bAddrReserved, 2) && Parts(p)[5] == p.site
    ensures Parts(p)[6] == [p.ackResBits as int] && Parts(p)[7] == [p.sequence]
    ensures Parts(p)[8] == LittleEndian(p.timestamp, 8) && Parts(p)[9] == LittleEndian(p.packetType, 2)
    ensures Parts(p)[10] == LittleEndian(p.pckReserved, 2) && Parts(p)[11] == p.data[..p.dataSize]
  {
    FlattenOfSnoc(Fields(p), p.data[..p.dataSize]);
  }

  /** A field stands in a datagram from this place on. */
  predicate StandsAt(bytes: seq<Byte>, offset: nat, field: seq<Byte>) {
    offset + |field| <= |bytes| && bytes[offset..offset + |field|] == field
  }

  /** What stands in the bytes of the parts before `k`, and in those of part `k`. */
  lemma PartStandsAt(parts: seq<seq<Byte>>, k: nat, offset: nat)
    requires k < |parts| && |Flatten(parts[..k])| == offset
    ensures |Flatten(parts[..k + 1])| == offset + |parts[k]| <= |Flatten(parts)|
    ensures StandsAt(Flatten(parts), offset, parts[k])
  {
    FlattenOfSnoc(parts[..k], parts[k]);
    assert parts[..k] + [parts[k]] == parts[..k + 1];
    FlattenOfConcat(parts[..k + 1], parts[k + 1..]);
    assert parts[..k + 1] + parts[k + 1..] == parts;
  }

  lemma {:induction false} FlattenOfConcat(a: seq<seq<Byte>>, b: seq<seq<Byte>>)
    ensures Flatten(a + b) == Flatten(a) + Flatten(b)
    decreases |a|
  {
    if a == [] {
      assert a + b == b;
    } else {
      assert (a + b)[1..] == a[1..] + b;
      FlattenOfConcat(a[1..], b);
    }
  }

  lemma FrameOnWire(p: Packet)
    requires Fits(p) && p.dataSize <= |p.data|
    ensures var bytes := Encode(p);
            && StandsAt(bytes, 0, LittleEndian(p.size, 2)) && StandsAt(bytes, 2, LittleEndian(p.protocol, 2))
            && StandsAt(bytes, 4, LittleEndian(p.source, 4)) && StandsAt(bytes, 8, p.bulbAddress)
            && StandsAt(bytes, 14, LittleEndian(p.bAddrReserved, 2)) && StandsAt(bytes, 16, p.site)
            && |Flatten(Parts(p)[..6])| == 22
  {
    var parts := Parts(p);
    PartsOfPacket(p);
    assert parts[..0] == [];
    PartStandsAt(parts, 0, 0);
    PartStandsAt(parts, 1, 2);
    PartStandsAt(parts, 2, 4);
    PartStandsAt(parts, 3, 8);
    PartStandsAt(parts, 4, 14);
    PartStandsAt(parts, 5, 16);
  }

  /** Where each field stands in the datagram. */
  lemma LayoutOnWire(p: Packet)
    requires Fits(p) && p.dataSize <= |p.data|
    ensures var bytes := Encode(p);
            && |bytes| == 36 + p.dataSize
            && StandsAt(bytes, 0, LittleEndian(p.size, 2)) && StandsAt(bytes, 2, LittleEndian(p.protocol, 2))
            && StandsAt(bytes, 4, LittleEndian(p.source, 4)) && StandsAt(bytes, 8, p.bulbAddress)
            && StandsAt(bytes, 14, LittleEndian(p.bAddrReserved, 2)) && StandsAt(bytes, 16, p.site)
            && StandsAt(bytes, 22, [p.ackResBits as int]) && StandsAt(bytes, 23, [p.sequence])
            && StandsAt(bytes, 24, LittleEndian(p.timestamp, 8))
            && StandsAt(bytes, 32, LittleEndian(p.packetType, 2))
            && StandsAt(bytes, 34, LittleEndian(p.pckReserved, 2)) && StandsAt(bytes, 36, p.data[..p.dataSize])
  {
    var parts := Parts(p);
    FrameOnWire(p);
    PartsOfPacket(p);
    PartStandsAt(parts, 6, 22);
    PartStandsAt(parts, 7, 23);
    PartStandsAt(parts, 8, 24);
    PartStandsAt(parts, 9, 32);
    PartStandsAt(parts, 10, 34);
    PartStandsAt(parts, 11, 36);
    assert parts[..12] == parts;
  }

  /** What is in the buffer, followed by the parts from the `k`-th on, are all the parts. */
  ghost predicate Writing(buffer: array<Byte>, pos: nat, parts: seq<seq<Byte>>, k: nat)
    requires k <= |parts|
    reads buffer
  {
    pos <= buffer.Length == |Flatten(parts)| && buffer[..pos] + Flatten(parts[k..]) == Flatten(parts)
  }

  lemma WriteOne(done: seq<Byte>, parts: seq<seq<Byte>>, k: nat)
    requires k < |parts|
    ensures done + Flatten(parts[k..]) == done + parts[k] + Flatten(parts[k + 1..])
  {
    assert parts[k..][1..] == parts[k + 1..];
  }

  /** Writes the `k`-th part at the end of what has been written. */
  method Write(buffer: array<Byte>, pos: nat, bytes: seq<Byte>, ghost parts: seq<seq<Byte>>, ghost k: nat)
    returns (next: nat)
    requires k < |parts| && bytes == parts[k]
    requires Writing(buffer, pos, parts, k)
    modifies buffer
    ensures Writing(buffer, next, parts, k + 1)
  {
    WriteOne(buffer[..pos], parts, k);
    ghost var done := buffer[..pos];
    var i := 0;
    while i < |bytes|
      invariant 0 <= i <= |bytes| && pos + |bytes| <= buffer.Length
      invariant buffer[..pos + i] == done + bytes[..i]
    {
      buffer[pos + i] := bytes[i];
      i := i + 1;
    }
    next := pos + |bytes|;
  }

  // ------------------------------------------------------------- the class

  class LifxMessage {
    var lifxPacket: Packet

    ghost predicate Valid()
      reads this
    {
      Fits(lifxPacket) && Sized(lifxPacket)
    }

    constructor ()
      ensures Valid() && lifxPacket == Fresh()
    {
      lifxPacket := Fresh();
      new;
      FreshIsGood();
    }

    constructor GetService()
      ensures Valid() && Says(lifxPacket, Request(0, GET_SERVICE, [], false, true))
    {
      lifxPacket := Fresh();
      new;
      FreshIsGood();
      Configure(GET_SERVICE);
    }

    constructor GetPower()
      ensures Valid() && Says(lifxPacket, Request(0, GET_POWER, [], false, true))
    {
      lifxPacket := Fresh();
      new;
      FreshIsGood();
      Configure(GET_POWER);
    }

    constructor SetPower(power: nat)
      requires power < 0x1_0000
      ensures Valid() && Says(lifxPacket, Request(0, SET_POWER, [LowByte(power), HighByte(power)], false, true))
    {
      lifxPacket := Fresh();
      new;
      FreshIsGood();
      Configure(SET_POWER);
      FormatData(power);
    }

    /** What the three constructors of messages have in common. */
    method Configure(packetType: nat)
      requires Valid() && Says(lifxPacket, LastCalls([])) && Allowed(SetType(packetType))
      modifies this
      ensures Valid() && Says(lifxPacket, Request(0, packetType, [], false, true))
    {
      ghost var r := LastCalls([]);
      SetterSays(lifxPacket, SetType(packetType), r);
      SetPacketType(packetType);
      SetterSays(lifxPacket, Setter.AcknowledgeRequired(false), Overlay(r, SetType(packetType)));
      AcknowledgeRequired(false);
      SetterSays(lifxPacket, Setter.ResponseRequired(true), r.(packetType := packetType, ack := false));
      ResponseRequired(true);
    }

    method FormatData(power: nat)
      requires Valid() && power < 0x1_0000
      modifies this
      ensures Valid() && lifxPacket == Set(old(lifxPacket), Setter.SetData([LowByte(power), HighByte(power)]))
      ensures lifxPacket.dataSize == 2 && lifxPacket.data[..2] == [power % 256, power / 256]
      ensures forall r :: Says(old(lifxPacket), r) ==> Says(lifxPacket, r.(data := [LowByte(power), HighByte(power)]))
    {
      var part := [LowByte(power), HighByte(power)];
      ghost var before := lifxPacket;
      SetData(part);
      forall r | Says(before, r) ensures Says(lifxPacket, r.(data := part)) {
        SetterSays(before, Setter.SetData(part), r);
      }
    }

    method SetPacketSource(source: nat)
      requires Valid() && Allowed(SetSource(source))
      modifies this
      ensures Valid() && lifxPacket == Set(old(lifxPacket), SetSource(source))
      ensures lifxPacket == old(lifxPacket).(source := source)
    {
      lifxPacket := lifxPacket.(source := source);
    }

    method SetPacketType(packetType: nat)
      requires Valid() && Allowed(SetType(packetType))
      modifies this
      ensures Valid() && lifxPacket == Set(old(lifxPacket), SetType(packetType))
      ensures lifxPacket == old(lifxPacket).(packetType := packetType)
    {
      lifxPacket := lifxPacket.(packetType := packetType);
    }

    method AcknowledgeRequired(ack: bool)
      requires Valid()
      modifies this
      ensures Valid() && lifxPacket == Set(old(lifxPacket), Setter.AcknowledgeRequired(ack))
      ensures lifxPacket.ackResBits & 2 != 0 <==> ack
      ensures lifxPacket.ackResBits & !2 == old(lifxPacket).ackResBits & !2
    {
      if ack {
        lifxPacket := lifxPacket.(ackResBits := lifxPacket.ackResBits | 2);
      } else {
        lifxPacket := lifxPacket.(ackResBits := lifxPacket.ackResBits & !2);
      }
    }

    method ResponseRequired(res: bool)
      requires Valid()
      modifies this
      ensures Valid() && lifxPacket == Set(old(lifxPacket), Setter.ResponseRequired(res))
      ensures lifxPacket.ackResBits & 1 != 0 <==> res
      ensures lifxPacket.ackResBits & !1 == old(lifxPacket).ackResBits & !1
    {
      if res {
        lifxPacket := lifxPacket.(ackResBits := lifxPacket.ackResBits | 1);
      } else {
        lifxPacket := lifxPacket.(ackResBits := lifxPacket.ackResBits & !1);
      }
    }

    method SetData(databuf: seq<Byte>)
      requires Valid() && Allowed(Setter.SetData(databuf))
      modifies this
      ensures Valid() && lifxPacket == Set(old(lifxPacket), Setter.SetData(databuf))
      ensures lifxPacket == old(lifxPacket).(size := 36 + |databuf|, dataSize := |databuf|,
                                             data := databuf + old(lifxPacket).data[|databuf|..])
    {
      var before := lifxPacket;
      lifxPacket := lifxPacket.(size := HEADER_SIZE + |databuf|, dataSize := |databuf|);
      var pos := 0;
      while pos < |databuf|
        invariant 0 <= pos <= |databuf|
        invariant |lifxPacket.data| == DATA_CAPACITY
        invariant lifxPacket.(data := before.data, size := before.size, dataSize := before.dataSize) == before
        invariant lifxPacket.size == HEADER_SIZE + |databuf| && lifxPacket.dataSize == |databuf|
        invariant lifxPacket.data == databuf[..pos] + before.data[pos..]
      {
        lifxPacket := lifxPacket.(data := lifxPacket.data[pos := databuf[pos]]);
        pos := pos + 1;
      }
      SetterKeepsShape(before, Setter.SetData(databuf));
      assert databuf[..pos] == databuf;
    }

    /** The datagram handed to the socket. */
    method SendMessage(now: nat) returns (datagram: seq<Byte>)
      requires Valid() && now < Pow256(8)
      modifies this
      ensures Valid() && lifxPacket == old(lifxPacket).(timestamp := now)
      ensures datagram == Encode(lifxPacket)
    {
      lifxPacket := lifxPacket.(timestamp := now);
      SizeIsLength(lifxPacket);
      var messageBuffer := new Byte[lifxPacket.size];
      var p := lifxPacket;
      ghost var parts := Parts(p);
      PartsOfPacket(p);
      assert parts[0..] == parts;
      var pos := WriteFrame(messageBuffer, p, parts);
      pos := WriteBody(messageBuffer, pos, p, parts);
      assert messageBuffer[..pos] == Flatten(parts);
      datagram := messageBuffer[..];
    }

    method WriteFrame(buffer: array<Byte>, p: Packet, ghost parts: seq<seq<Byte>>) returns (pos: nat)
      requires p.dataSize <= |p.data| && parts == Parts(p)
      requires Writing(buffer, 0, parts, 0)
      modifies buffer
      ensures |parts| == 12 && Writing(buffer, pos, parts, 6)
    {
      PartsOfPacket(p);
      pos := Write(buffer, 0, LittleEndian(p.size, 2), parts, 0);
      pos := Write(buffer, pos, LittleEndian(p.protocol, 2), parts, 1);
      pos := Write(buffer, pos, LittleEndian(p.source, 4), parts, 2);
      pos := Write(buffer, pos, p.bulbAddress, parts, 3);
      pos := Write(buffer, pos, LittleEndian(p.bAddrReserved, 2), parts, 4);
      pos := Write(buffer, pos, p.site, parts, 5);
    }

    method WriteBody(buffer: array<Byte>, start: nat, p: Packet, ghost parts: seq<seq<Byte>>) returns (pos: nat)
      requires p.dataSize <= |p.data| && parts == Parts(p) && |parts| == 12
      requires Writing(buffer, start, parts, 6)
      modifies buffer
      ensures Writing(buffer, pos, parts, 12)
    {
      PartsOfPacket(p);
      pos := Write(buffer, start, [p.ackResBits as int], parts, 6);
      pos := Write(buffer, pos, [p.sequence], parts, 7);
      pos := Write(buffer, pos, LittleEndian(p.timestamp, 8), parts, 8);
      pos := Write(buffer, pos, LittleEndian(p.packetType, 2), parts, 9);
      pos := Write(buffer, pos, LittleEndian(p.pckReserved, 2), parts, 10);
      pos := Write(buffer, pos, p.data[..p.dataSize], parts, 11);
    }
  }
}
