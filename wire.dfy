/**
 * The Python side of the multiplayer wire format (tools/network/test_multiplayer.py).
 *
 * A datagram is 32 bytes: an 8-byte little-endian header packed as `<BBBBI`
 * (version, message type, player id, padding 0, u32 sequence number) and a
 * 24-byte payload. `struct.pack` raises when a value does not fit its field;
 * that is modelled as `None`. Python integers are unbounded, so a sequence
 * number that has grown past 2^32 - 1 makes every later header fail to pack.
 */
module WireFormat {
  import opened FixedMath

  type Byte = b: int | 0 <= b < 256

  const PROTOCOL_VERSION: int := 1
  const HEADER_SIZE: int := 8
  const PAYLOAD_SIZE: int := 24
  const PACKET_SIZE: int := 32

  // MessageType as the Python tools number it
  const MSG_LOBBY_JOIN: int := 0
  const MSG_LOBBY_UPDATE: int := 1
  const MSG_READY: int := 2
  const MSG_CAR_UPDATE: int := 3
  const MSG_ITEM_PLACED: int := 4
  const MSG_ITEM_BOX_PICKUP: int := 5
  const MSG_DISCONNECT: int := 6
  const MESSAGE_TYPE_COUNT: int := 7

  // Item as the Python tools number it
  const ITEM_NONE: int := 0
  const ITEM_BANANA: int := 1
  const ITEM_GREEN_SHELL: int := 2
  const ITEM_RED_SHELL: int := 3
  const ITEM_BOOST: int := 4

  const U32_LIMIT: int := 0x1_0000_0000
  const I32_MIN: int := -0x8000_0000
  const I32_LIMIT: int := 0x8000_0000

  // ---------------------------------------------------------------------
  // Little-endian integers
  // ---------------------------------------------------------------------

  function Pow256(n: nat): (p: nat)
    ensures p >= 1
  {
    if n == 0 then 1 else 256 * Pow256(n - 1)
  }

  lemma Pow256Values()
    ensures Pow256(1) == 256 && Pow256(4) == U32_LIMIT
  {
    assert Pow256(2) == 65536;
    assert Pow256(3) == 16777216;
  }

  /** The n least significant bytes of v, least significant first. */
  function LittleEndian(v: nat, n: nat): (r: seq<Byte>)
    ensures |r| == n
  {
    if n == 0 then [] else [v % 256] + LittleEndian(v / 256, n - 1)
  }

  /** The unsigned value of a little-endian byte string. */
  function FromLittleEndian(b: seq<Byte>): (v: nat)
  {
    if |b| == 0 then 0 else b[0] + 256 * FromLittleEndian(b[1..])
  }

  lemma {:induction false} LittleEndianRoundTrip(v: nat, n: nat)
    requires v < Pow256(n)
    ensures FromLittleEndian(LittleEndian(v, n)) == v
    decreases n
  {
    if n > 0 {
      var b := LittleEndian(v, n);
      assert b[1..] == LittleEndian(v / 256, n - 1);
      LittleEndianRoundTrip(v / 256, n - 1);
    }
  }

  lemma {:induction false} FromLittleEndianBound(b: seq<Byte>)
    ensures FromLittleEndian(b) < Pow256(|b|)
    decreases |b|
  {
    if |b| > 0 {
      FromLittleEndianBound(b[1..]);
    }
  }

  /** Every byte string is the encoding of its own value. */
  lemma {:induction false} FromLittleEndianRoundTrip(b: seq<Byte>)
    ensures LittleEndian(FromLittleEndian(b), |b|) == b
    decreases |b|
  {
    if |b| > 0 {
      var v := FromLittleEndian(b);
      FromLittleEndianBound(b[1..]);
      assert v % 256 == b[0] && v / 256 == FromLittleEndian(b[1..]);
      FromLittleEndianRoundTrip(b[1..]);
    }
  }

  /** struct 'B': one unsigned byte, or an error when v is out of range. */
  function PackU8(v: int): Option<seq<Byte>>
  {
    if 0 <= v < 256 then Some([v]) else None
  }

  /** struct '<I': four little-endian bytes of an unsigned 32-bit value. */
  function PackU32(v: int): (r: Option<seq<Byte>>)
    ensures r.Some? <==> 0 <= v < U32_LIMIT
    ensures r.Some? ==> |r.value| == 4 && UnpackU32(r.value) == v
  {
    if 0 <= v < U32_LIMIT then
      Pow256Values();
      LittleEndianRoundTrip(v, 4);
      Some(LittleEndian(v, 4))
    else None
  }

  function UnpackU32(b: seq<Byte>): nat
    requires |b| == 4
  {
    FromLittleEndian(b)
  }

  /** struct '<i': four little-endian bytes of a two's-complement 32-bit value. */
  function PackI32(v: int): (r: Option<seq<Byte>>)
    ensures r.Some? <==> I32_MIN <= v < I32_LIMIT
    ensures r.Some? ==> |r.value| == 4 && UnpackI32(r.value) == v
  {
    if I32_MIN <= v < I32_LIMIT then
      var u := if v < 0 then v + U32_LIMIT else v;
      Pow256Values();
      LittleEndianRoundTrip(u, 4);
      Some(LittleEndian(u, 4))
    else None
  }

  function UnpackI32(b: seq<Byte>): int
    requires |b| == 4
  {
    var u := FromLittleEndian(b);
    if u >= I32_LIMIT then u - U32_LIMIT else u
  }

  /** Decoding any four bytes and packing the value again gives the same bytes. */
  lemma UnpackI32RoundTrip(b: seq<Byte>)
    requires |b| == 4
    ensures PackI32(UnpackI32(b)) == Some(b)
  {
    Pow256Values();
    FromLittleEndianBound(b);
    FromLittleEndianRoundTrip(b);
  }

  function Zeros(n: nat): (r: seq<Byte>)
    ensures |r| == n && forall i | 0 <= i < n :: r[i] == 0
  {
    seq(n, i => 0)
  }

  /** Python's int() on a float: truncation toward zero. */
  function TruncReal(x: real): (r: int)
    ensures x >= 0.0 ==> r as real <= x < r as real + 1.0
    ensures x < 0.0 ==> r as real - 1.0 < x <= r as real
  {
    if x >= 0.0 then x.Floor else -((-x).Floor)
  }

  /** int(x * 256): a float coordinate or speed converted to Q16.8. */
  function ToQ16_8(x: real): int
  {
    TruncReal(x * 256.0)
  }

  // ---------------------------------------------------------------------
  // Header
  // ---------------------------------------------------------------------

  datatype Header = Header(version: int, msgType: int, playerId: int, padding: int, sequence: int)

  /** struct.pack('<BBBBI', PROTOCOL_VERSION, msgType, playerId, 0, sequence). */
  function PackHeader(msgType: int, playerId: int, sequence: int): (r: Option<seq<Byte>>)
    ensures r.Some? <==> 0 <= msgType < 256 && 0 <= playerId < 256 && 0 <= sequence < U32_LIMIT
    ensures r.Some? ==> (|r.value| == HEADER_SIZE &&
      r.value[..4] == [PROTOCOL_VERSION, msgType, playerId, 0] &&
      UnpackU32(r.value[4..]) == sequence)
  {
    if 0 <= msgType < 256 && 0 <= playerId < 256 && 0 <= sequence < U32_LIMIT then
      Some([PROTOCOL_VERSION, msgType, playerId, 0] + PackU32(sequence).value)
    else None
  }

  /** The listener's header decode: datagrams shorter than 8 bytes are skipped. */
  function DecodeHeader(data: seq<Byte>): (r: Option<Header>)
    ensures r.Some? <==> |data| >= HEADER_SIZE
  {
    if |data| < HEADER_SIZE then None
    else Some(Header(data[0], data[1], data[2], data[3], UnpackU32(data[4..8])))
  }

  /** How the listener labels a message type: values 7 and above are UNKNOWN. */
  datatype TypeLabel = Named(msgType: int) | Unknown(value: int)

  function LabelOf(msgType: Byte): (r: TypeLabel)
    ensures r.Named? <==> msgType < MESSAGE_TYPE_COUNT
    ensures r.Named? ==> r.msgType == msgType
    ensures r.Unknown? ==> r.value == msgType
  {
    if msgType < MESSAGE_TYPE_COUNT then Named(msgType) else Unknown(msgType)
  }

  /** A packed header followed by any payload decodes to the fields that were packed. */
  lemma HeaderRoundTrip(msgType: int, playerId: int, sequence: int, payload: seq<Byte>)
    requires PackHeader(msgType, playerId, sequence).Some?
    ensures DecodeHeader(PackHeader(msgType, playerId, sequence).value + payload)
      == Some(Header(PROTOCOL_VERSION, msgType, playerId, 0, sequence))
  {
    var h := PackHeader(msgType, playerId, sequence).value;
    var d := h + payload;
    assert d[4..8] == h[4..];
  }

  // ---------------------------------------------------------------------
  // Payloads
  // ---------------------------------------------------------------------

  /** struct.pack('<B23x', int(isReady)): the lobby payloads. */
  function ReadyPayload(isReady: bool): (r: seq<Byte>)
    ensures |r| == PAYLOAD_SIZE
    ensures r[0] == (if isReady then 1 else 0) && r[1..] == Zeros(23)
  {
    [if isReady then 1 else 0] + Zeros(23)
  }

  datatype CarState = CarState(x: int, y: int, speed: int, angle512: int, lap: int, item: int)

  /** struct.pack('<iiiiii', ...): the car-update payload, fields already in Q16.8. */
  function CarPayload(s: CarState): (r: Option<seq<Byte>>)
    ensures r.Some? <==> (I32_MIN <= s.x < I32_LIMIT && I32_MIN <= s.y < I32_LIMIT &&
      I32_MIN <= s.speed < I32_LIMIT && I32_MIN <= s.angle512 < I32_LIMIT &&
      I32_MIN <= s.lap < I32_LIMIT && I32_MIN <= s.item < I32_LIMIT)
    ensures r.Some? ==> |r.value| == PAYLOAD_SIZE && DecodeCarPayload(r.value) == s
  {
    var fields := [PackI32(s.x), PackI32(s.y), PackI32(s.speed),
                   PackI32(s.angle512), PackI32(s.lap), PackI32(s.item)];
    if forall k | 0 <= k < 6 :: fields[k].Some? then
      var r := fields[0].value + fields[1].value + fields[2].value +
               fields[3].value + fields[4].value + fields[5].value;
      WordSlices(fields[0].value, fields[1].value, fields[2].value,
                 fields[3].value, fields[4].value, fields[5].value);
      Some(r)
    else
      assert !PackI32(s.x).Some? || !PackI32(s.y).Some? || !PackI32(s.speed).Some? ||
        !PackI32(s.angle512).Some? || !PackI32(s.lap).Some? || !PackI32(s.item).Some?;
      None
  }

  /** Six 4-byte words laid end to end can be read back at offsets 0, 4, ..., 20. */
  lemma WordSlices(a: seq<Byte>, b: seq<Byte>, c: seq<Byte>, d: seq<Byte>, e: seq<Byte>, f: seq<Byte>)
    requires |a| == |b| == |c| == |d| == |e| == |f| == 4
    ensures var r := a + b + c + d + e + f;
      |r| == 24 && r[0..4] == a && r[4..8] == b && r[8..12] == c &&
      r[12..16] == d && r[16..20] == e && r[20..24] == f
  {
    var ab := a + b;
    assert ab[0..4] == a && ab[4..8] == b;
    var abc := ab + c;
    assert abc[0..8] == ab && abc[8..12] == c;
    var abcd := abc + d;
    assert abcd[0..12] == abc && abcd[12..16] == d;
    var abcde := abcd + e;
    assert abcde[0..16] == abcd && abcde[16..20] == e;
    var r := abcde + f;
    assert r[0..20] == abcde && r[20..24] == f;
    assert r[0..4] == abcde[0..4] == abcd[0..4] == abc[0..4] == ab[0..4];
    assert r[4..8] == abcde[4..8] == abcd[4..8] == abc[4..8] == ab[4..8];
    assert r[8..12] == abcde[8..12] == abcd[8..12] == abc[8..12];
    assert r[12..16] == abcde[12..16] == abcd[12..16];
    assert r[16..20] == abcde[16..20];
  }

  function DecodeCarPayload(p: seq<Byte>): CarState
    requires |p| == PAYLOAD_SIZE
  {
    CarState(UnpackI32(p[0..4]), UnpackI32(p[4..8]), UnpackI32(p[8..12]),
             UnpackI32(p[12..16]), UnpackI32(p[16..20]), UnpackI32(p[20..24]))
  }

  /** The car state a Python float position, speed and the integer fields become. */
  function CarStateOf(posX: real, posY: real, speed: real, angle512: int, lap: int, item: int): CarState
  {
    CarState(ToQ16_8(posX), ToQ16_8(posY), ToQ16_8(speed), angle512, lap, item)
  }

  datatype ItemPlacement = ItemPlacement(itemType: int, x: int, y: int, angle512: int, speed: int)

  /** struct.pack('<iiiii4x', itemType, x, y, angle512, speed). */
  function ItemPlacedPayload(m: ItemPlacement): (r: Option<seq<Byte>>)
    ensures r.Some? <==> (I32_MIN <= m.itemType < I32_LIMIT && I32_MIN <= m.x < I32_LIMIT &&
      I32_MIN <= m.y < I32_LIMIT && I32_MIN <= m.angle512 < I32_LIMIT && I32_MIN <= m.speed < I32_LIMIT)
    ensures r.Some? ==> (|r.value| == PAYLOAD_SIZE && DecodeItemPlacedPayload(r.value) == m &&
      r.value[20..] == Zeros(4))
  {
    var fields := [PackI32(m.itemType), PackI32(m.x), PackI32(m.y), PackI32(m.angle512), PackI32(m.speed)];
    if forall k | 0 <= k < 5 :: fields[k].Some? then
      var r := fields[0].value + fields[1].value + fields[2].value +
               fields[3].value + fields[4].value + Zeros(4);
      assert r[0..4] == fields[0].value && r[4..8] == fields[1].value;
      assert r[8..12] == fields[2].value && r[12..16] == fields[3].value;
      assert r[16..20] == fields[4].value && r[20..] == Zeros(4);
      Some(r)
    else
      assert !PackI32(m.itemType).Some? || !PackI32(m.x).Some? || !PackI32(m.y).Some? ||
        !PackI32(m.angle512).Some? || !PackI32(m.speed).Some?;
      None
  }

  function DecodeItemPlacedPayload(p: seq<Byte>): ItemPlacement
    requires |p| == PAYLOAD_SIZE
  {
    ItemPlacement(UnpackI32(p[0..4]), UnpackI32(p[4..8]), UnpackI32(p[8..12]),
                  UnpackI32(p[12..16]), UnpackI32(p[16..20]))
  }

  /** struct.pack('<i20x', boxIndex). */
  function BoxPickupPayload(boxIndex: int): (r: Option<seq<Byte>>)
    ensures r.Some? <==> I32_MIN <= boxIndex < I32_LIMIT
    ensures r.Some? ==> (|r.value| == PAYLOAD_SIZE &&
      UnpackI32(r.value[..4]) == boxIndex && r.value[4..] == Zeros(20))
  {
    var f := PackI32(boxIndex);
    if f.Some? then
      var r := f.value + Zeros(20);
      assert r[..4] == f.value && r[4..] == Zeros(20);
      Some(r)
    else None
  }

  /** b'\x00' * 24. */
  function DisconnectPayload(): (r: seq<Byte>)
    ensures |r| == PAYLOAD_SIZE && forall i | 0 <= i < |r| :: r[i] == 0
  {
    Zeros(PAYLOAD_SIZE)
  }

  /** header + payload, failing when either could not be packed. */
  function Assemble(header: Option<seq<Byte>>, payload: Option<seq<Byte>>): Option<seq<Byte>>
  {
    if header.Some? && payload.Some? then Some(header.value + payload.value) else None
  }

  /**
   * Every packet a builder produces is 32 bytes long and decodes to the
   * header it was stamped with.
   */
  lemma PacketShape(msgType: int, playerId: int, sequence: int, payload: Option<seq<Byte>>)
    requires payload.Some? ==> |payload.value| == PAYLOAD_SIZE
    ensures var p := Assemble(PackHeader(msgType, playerId, sequence), payload);
      p.Some? ==> (|p.value| == PACKET_SIZE &&
        p.value[..4] == [PROTOCOL_VERSION, msgType, playerId, 0] &&
        DecodeHeader(p.value) == Some(Header(PROTOCOL_VERSION, msgType, playerId, 0, sequence)) &&
        p.value[HEADER_SIZE..] == payload.value)
  {
    var h := PackHeader(msgType, playerId, sequence);
    if h.Some? && payload.Some? {
      HeaderRoundTrip(msgType, playerId, sequence, payload.value);
      var p := h.value + payload.value;
      assert p[..4] == h.value[..4];
      assert p[HEADER_SIZE..] == payload.value;
    }
  }

  // ---------------------------------------------------------------------
  // NetworkPacketBuilder
  // ---------------------------------------------------------------------

  /**
   * NetworkPacketBuilder: each build_* packs the header with the current
   * sequence number and increments it before packing the payload, so a
   * payload that fails to pack still consumes a number.
   */
  class PacketBuilder {
    var playerId: int
    var sequence: int

    constructor(playerId: int)
      ensures this.playerId == playerId && sequence == 0
    {
      this.playerId := playerId;
      sequence := 0;
    }

    /** The header pack followed by the increment shared by every build_*. */
    method StampHeader(msgType: int) returns (h: Option<seq<Byte>>)
      modifies this
      ensures h == PackHeader(msgType, playerId, old(sequence))
      ensures playerId == old(playerId)
      ensures sequence == old(sequence) + (if h.Some? then 1 else 0)
    {
      h := PackHeader(msgType, playerId, sequence);
      if h.Some? {
        sequence := sequence + 1;
      }
    }

    method BuildLobbyJoin() returns (p: Option<seq<Byte>>)
      modifies this
      ensures p == Assemble(PackHeader(MSG_LOBBY_JOIN, playerId, old(sequence)), Some(ReadyPayload(false)))
      ensures playerId == old(playerId)
      ensures sequence == old(sequence) + (if PackHeader(MSG_LOBBY_JOIN, playerId, old(sequence)).Some? then 1 else 0)
    {
      var h := StampHeader(MSG_LOBBY_JOIN);
      p := Assemble(h, Some(ReadyPayload(false)));
    }

    method BuildLobbyUpdate(isReady: bool) returns (p: Option<seq<Byte>>)
      modifies this
      ensures p == Assemble(PackHeader(MSG_LOBBY_UPDATE, playerId, old(sequence)), Some(ReadyPayload(isReady)))
      ensures playerId == old(playerId)
      ensures sequence == old(sequence) + (if PackHeader(MSG_LOBBY_UPDATE, playerId, old(sequence)).Some? then 1 else 0)
    {
      var h := StampHeader(MSG_LOBBY_UPDATE);
      p := Assemble(h, Some(ReadyPayload(isReady)));
    }

    method BuildReady(isReady: bool) returns (p: Option<seq<Byte>>)
      modifies this
      ensures p == Assemble(PackHeader(MSG_READY, playerId, old(sequence)), Some(ReadyPayload(isReady)))
      ensures playerId == old(playerId)
      ensures sequence == old(sequence) + (if PackHeader(MSG_READY, playerId, old(sequence)).Some? then 1 else 0)
    {
      var h := StampHeader(MSG_READY);
      p := Assemble(h, Some(ReadyPayload(isReady)));
    }

    method BuildCarUpdate(posX: real, posY: real, speed: real, angle512: int, lap: int, item: int)
      returns (p: Option<seq<Byte>>)
      modifies this
      ensures p == Assemble(PackHeader(MSG_CAR_UPDATE, playerId, old(sequence)),
                            CarPayload(CarStateOf(posX, posY, speed, angle512, lap, item)))
      ensures playerId == old(playerId)
      ensures sequence == old(sequence) + (if PackHeader(MSG_CAR_UPDATE, playerId, old(sequence)).Some? then 1 else 0)
    {
      var h := StampHeader(MSG_CAR_UPDATE);
      if h.Some? {
        p := Assemble(h, CarPayload(CarStateOf(posX, posY, speed, angle512, lap, item)));
      } else {
        p := None;
      }
    }

    method BuildItemPlaced(itemType: int, posX: real, posY: real, angle512: int, speed: real)
      returns (p: Option<seq<Byte>>)
      modifies this
      ensures p == Assemble(PackHeader(MSG_ITEM_PLACED, playerId, old(sequence)),
                            ItemPlacedPayload(ItemPlacement(itemType, ToQ16_8(posX), ToQ16_8(posY), angle512, ToQ16_8(speed))))
      ensures playerId == old(playerId)
      ensures sequence == old(sequence) + (if PackHeader(MSG_ITEM_PLACED, playerId, old(sequence)).Some? then 1 else 0)
    {
      var h := StampHeader(MSG_ITEM_PLACED);
      if h.Some? {
        p := Assemble(h, ItemPlacedPayload(ItemPlacement(itemType, ToQ16_8(posX), ToQ16_8(posY), angle512, ToQ16_8(speed))));
      } else {
        p := None;
      }
    }

    method BuildItemBoxPickup(boxIndex: int) returns (p: Option<seq<Byte>>)
      modifies this
      ensures p == Assemble(PackHeader(MSG_ITEM_BOX_PICKUP, playerId, old(sequence)), BoxPickupPayload(boxIndex))
      ensures playerId == old(playerId)
      ensures sequence == old(sequence) + (if PackHeader(MSG_ITEM_BOX_PICKUP, playerId, old(sequence)).Some? then 1 else 0)
    {
      var h := StampHeader(MSG_ITEM_BOX_PICKUP);
      if h.Some? {
        p := Assemble(h, BoxPickupPayload(boxIndex));
      } else {
        p := None;
      }
    }

    method BuildDisconnect() returns (p: Option<seq<Byte>>)
      modifies this
      ensures p == Assemble(PackHeader(MSG_DISCONNECT, playerId, old(sequence)), Some(DisconnectPayload()))
      ensures playerId == old(playerId)
      ensures sequence == old(sequence) + (if PackHeader(MSG_DISCONNECT, playerId, old(sequence)).Some? then 1 else 0)
    {
      var h := StampHeader(MSG_DISCONNECT);
      p := Assemble(h, Some(DisconnectPayload()));
    }
  }

  /**
   * A fresh builder for a valid player id stamps its first three packets with
   * the sequence numbers 0, 1 and 2.
   */
  method ConsecutiveSequenceNumbers(playerId: int) returns (a: Option<seq<Byte>>, b: Option<seq<Byte>>, c: Option<seq<Byte>>)
    requires 0 <= playerId < 256
    ensures a.Some? && b.Some? && c.Some?
    ensures DecodeHeader(a.value) == Some(Header(PROTOCOL_VERSION, MSG_LOBBY_JOIN, playerId, 0, 0))
    ensures DecodeHeader(b.value) == Some(Header(PROTOCOL_VERSION, MSG_READY, playerId, 0, 1))
    ensures DecodeHeader(c.value) == Some(Header(PROTOCOL_VERSION, MSG_DISCONNECT, playerId, 0, 2))
  {
    var builder := new PacketBuilder(playerId);
    a := builder.BuildLobbyJoin();
    PacketShape(MSG_LOBBY_JOIN, playerId, 0, Some(ReadyPayload(false)));
    b := builder.BuildReady(true);
    PacketShape(MSG_READY, playerId, 1, Some(ReadyPayload(true)));
    c := builder.BuildDisconnect();
    PacketShape(MSG_DISCONNECT, playerId, 2, Some(DisconnectPayload()));
  }
}
