/**
 * The device side of the multiplayer session (source/multiplayer.c): the
 * C packet layout, the 8-slot peer table with its timeout, the lobby
 * heartbeat and the race-time car-state receiver.
 *
 * Sockets are abstracted: what `sendData` would transmit is appended to
 * `sent`, and the datagrams `receiveData` hands back (the reads that returned
 * more than 0 bytes) are an input sequence.
 */
module Multiplayer {
  import opened FixedMath
  import opened GameTypes
  import opened CarPhysics
  import W = WireFormat

  type Byte = W.Byte

  const PROTOCOL_VERSION: int := 1
  const PLAYER_TIMEOUT_MS: int := 3000
  const HEARTBEAT_INTERVAL_MS: int := 1000
  const FRAME_MS: int := 16
  const MAX_MULTIPLAYER_PLAYERS: int := 8
  const PACKET_SIZE: int := 32
  const U32_LIMIT: int := 0x1_0000_0000

  // MessageType as the C enum numbers it (five kinds only).
  const MSG_LOBBY_JOIN: int := 0
  const MSG_LOBBY_UPDATE: int := 1
  const MSG_READY: int := 2
  const MSG_CAR_UPDATE: int := 3
  const MSG_DISCONNECT: int := 4

  /** Unsigned 32-bit subtraction, as `currentTime - lastPacketTime` on uint32_t. */
  function U32Sub(a: int, b: int): (r: int)
    ensures 0 <= r < U32_LIMIT
    ensures 0 <= b <= a < U32_LIMIT ==> r == a - b
  {
    (a - b) % U32_LIMIT
  }

  // ---------------------------------------------------------------------
  // The C packet: 4-byte header, 28-byte payload union
  // ---------------------------------------------------------------------

  predicate InI32(v: int)
  {
    W.I32_MIN <= v < W.I32_LIMIT
  }

  /** A little-endian int32 field of the payload union at byte offset o. */
  function I32At(p: seq<Byte>, o: nat): int
    requires o + 4 <= |p|
  {
    W.UnpackI32(p[o..o + 4])
  }

  /** The `lobby` member: a bool read from the first payload byte. */
  predicate LobbyIsReady(p: seq<Byte>)
    requires |p| == PACKET_SIZE
  {
    p[4] != 0
  }

  /**
   * A lobby-kind packet as the designated initialisers build it: the
   * named fields set, every other byte zero.
   */
  function LobbyPacket(msgType: Byte, playerId: Byte, isReady: bool): (r: seq<Byte>)
    ensures |r| == PACKET_SIZE
    ensures r[0] == PROTOCOL_VERSION && r[1] == msgType && r[2] == playerId && r[3] == 0
    ensures LobbyIsReady(r) == isReady
    ensures forall k | 5 <= k < PACKET_SIZE :: r[k] == 0
  {
    [PROTOCOL_VERSION, msgType, playerId, 0] + [if isReady then 1 else 0] + W.Zeros(27)
  }

  predicate CarFieldsInRange(v: CarValue)
  {
    InI32(v.position.x) && InI32(v.position.y) && InI32(v.speed) &&
    InI32(v.angle512) && InI32(v.lap) && InI32(v.item)
  }

  /** The car-state fields a received packet overwrites. */
  function ApplyCarPacket(v: CarValue, p: seq<Byte>): CarValue
    requires |p| == PACKET_SIZE
  {
    v.(position := Vec2(I32At(p, 4), I32At(p, 8)), speed := I32At(p, 12),
       angle512 := I32At(p, 16), lap := I32At(p, 20), item := I32At(p, 24))
  }

  /**
   * The packet Multiplayer_SendCarState builds; read back by the receiver it
   * reproduces exactly the sender's position, speed, angle, lap and item.
   */
  function CarPacket(playerId: Byte, v: CarValue): (r: seq<Byte>)
    requires CarFieldsInRange(v)
    ensures |r| == PACKET_SIZE
    ensures r[0] == PROTOCOL_VERSION && r[1] == MSG_CAR_UPDATE && r[2] == playerId && r[3] == 0
    ensures forall c: CarValue :: (ApplyCarPacket(c, r) ==
      c.(position := v.position, speed := v.speed, angle512 := v.angle512, lap := v.lap, item := v.item))
  {
    var words := W.PackI32(v.position.x).value + W.PackI32(v.position.y).value +
                 W.PackI32(v.speed).value + W.PackI32(v.angle512).value +
                 W.PackI32(v.lap).value + W.PackI32(v.item).value;
    W.WordSlices(W.PackI32(v.position.x).value, W.PackI32(v.position.y).value,
                 W.PackI32(v.speed).value, W.PackI32(v.angle512).value,
                 W.PackI32(v.lap).value, W.PackI32(v.item).value);
    var r := [PROTOCOL_VERSION, MSG_CAR_UPDATE, playerId, 0] + words + W.Zeros(4);
    assert r[4..28] == words;
    assert r[4..8] == words[0..4] && r[8..12] == words[4..8] && r[12..16] == words[8..12];
    assert r[16..20] == words[12..16] && r[20..24] == words[16..20] && r[24..28] == words[20..24];
    r
  }

  /**
   * The receive buffer after one read: `recvfrom` overwrites as many leading
   * bytes as the datagram has (at most 32); the rest keep their old contents.
   */
  function Fill(buffer: seq<Byte>, d: seq<Byte>): (r: seq<Byte>)
    requires |buffer| == PACKET_SIZE && |d| > 0
    ensures |r| == PACKET_SIZE
    ensures |d| >= PACKET_SIZE ==> r == d[..PACKET_SIZE]
  {
    if |d| >= PACKET_SIZE then d[..PACKET_SIZE] else d + buffer[|d|..]
  }

  // ---------------------------------------------------------------------
  // The peer table
  // ---------------------------------------------------------------------

  datatype PlayerInfo = PlayerInfo(connected: bool, ready: bool, lastPacketTime: int)

  const NO_PLAYER: PlayerInfo := PlayerInfo(false, false, 0)

  /** The validation every lobby packet passes before it is looked at. */
  predicate FromPeer(p: seq<Byte>, me: int)
    requires |p| == PACKET_SIZE
  {
    p[0] == PROTOCOL_VERSION && p[2] < MAX_MULTIPLAYER_PLAYERS && p[2] != me
  }

  /** The effect of one received packet on the peer table. */
  function ApplyLobbyPacket(ps: seq<PlayerInfo>, p: seq<Byte>, me: int, now: int): (r: seq<PlayerInfo>)
    requires |ps| == MAX_MULTIPLAYER_PLAYERS && |p| == PACKET_SIZE
    ensures |r| == MAX_MULTIPLAYER_PLAYERS
    ensures !FromPeer(p, me) ==> r == ps
    ensures forall k | 0 <= k < MAX_MULTIPLAYER_PLAYERS && k != p[2] :: r[k] == ps[k]
    ensures 0 <= me < MAX_MULTIPLAYER_PLAYERS ==> r[me] == ps[me]
    ensures FromPeer(p, me) && p[1] == MSG_LOBBY_JOIN ==> r[p[2]] == PlayerInfo(true, false, now)
    ensures FromPeer(p, me) && (p[1] == MSG_LOBBY_UPDATE || p[1] == MSG_READY) ==>
      r[p[2]] == PlayerInfo(true, LobbyIsReady(p), now)
    ensures FromPeer(p, me) && p[1] == MSG_DISCONNECT ==>
      r[p[2]] == ps[p[2]].(connected := false, ready := false)
    ensures p[1] > MSG_DISCONNECT ==> r == ps
  {
    if !FromPeer(p, me) then ps
    else
      var id := p[2];
      if p[1] == MSG_LOBBY_JOIN then ps[id := PlayerInfo(true, false, now)]
      else if p[1] == MSG_LOBBY_UPDATE || p[1] == MSG_READY then ps[id := PlayerInfo(true, LobbyIsReady(p), now)]
      else if p[1] == MSG_DISCONNECT then ps[id := ps[id].(connected := false, ready := false)]
      else ps
  }

  datatype Inbox = Inbox(players: seq<PlayerInfo>, buffer: seq<Byte>)

  /** The lobby receive loop over a sequence of reads, as a left fold. */
  function ReceiveLobby(start: Inbox, datagrams: seq<seq<Byte>>, me: int, now: int): (r: Inbox)
    requires |start.players| == MAX_MULTIPLAYER_PLAYERS && |start.buffer| == PACKET_SIZE
    requires forall d | d in datagrams :: |d| > 0
    ensures |r.players| == MAX_MULTIPLAYER_PLAYERS && |r.buffer| == PACKET_SIZE
    ensures 0 <= me < MAX_MULTIPLAYER_PLAYERS ==> r.players[me] == start.players[me]
    decreases |datagrams|
  {
    if datagrams == [] then start
    else
      var prev := ReceiveLobby(start, datagrams[..|datagrams| - 1], me, now);
      var b := Fill(prev.buffer, datagrams[|datagrams| - 1]);
      Inbox(ApplyLobbyPacket(prev.players, b, me, now), b)
  }

  /** One slot after the timeout check. */
  function Expire(info: PlayerInfo, k: int, me: int, now: int): PlayerInfo
  {
    if k != me && info.connected && U32Sub(now, info.lastPacketTime) > PLAYER_TIMEOUT_MS
    then info.(connected := false, ready := false)
    else info
  }

  /**
   * The timeout pass: afterwards every connected peer other than the local
   * player has been heard from within 3000 ms; the pass only disconnects, and
   * never touches the local slot or any timestamp.
   */
  function TimeOut(ps: seq<PlayerInfo>, me: int, now: int): (r: seq<PlayerInfo>)
    ensures |r| == |ps|
    ensures forall k | 0 <= k < |r| && k != me && r[k].connected ::
      U32Sub(now, r[k].lastPacketTime) <= PLAYER_TIMEOUT_MS
    ensures 0 <= me < |ps| ==> r[me] == ps[me]
    ensures forall k | 0 <= k < |r| :: (r[k].connected ==> ps[k].connected) && (r[k].ready ==> ps[k].ready)
    ensures forall k | 0 <= k < |r| :: r[k].lastPacketTime == ps[k].lastPacketTime
    ensures forall k | 0 <= k < |r| && U32Sub(now, ps[k].lastPacketTime) <= PLAYER_TIMEOUT_MS :: r[k] == ps[k]
  {
    seq(|ps|, k requires 0 <= k < |ps| => Expire(ps[k], k, me, now))
  }

  /** resetLobbyState: every slot but the local one is disconnected and not ready. */
  function ResetOthers(ps: seq<PlayerInfo>, me: int): (r: seq<PlayerInfo>)
    ensures |r| == |ps|
    ensures 0 <= me < |ps| ==> r[me] == ps[me]
    ensures forall k | 0 <= k < |r| && k != me :: !r[k].connected && !r[k].ready
    ensures forall k | 0 <= k < |r| :: r[k].lastPacketTime == ps[k].lastPacketTime
  {
    seq(|ps|, k requires 0 <= k < |ps| =>
      if k != me then ps[k].(connected := false, ready := false) else ps[k])
  }

  function CountConnected(ps: seq<PlayerInfo>): nat
  {
    if ps == [] then 0
    else CountConnected(ps[..|ps| - 1]) + (if ps[|ps| - 1].connected then 1 else 0)
  }

  /** Players that are connected and ready. */
  function CountReady(ps: seq<PlayerInfo>): nat
  {
    if ps == [] then 0
    else CountReady(ps[..|ps| - 1]) + (if ps[|ps| - 1].connected && ps[|ps| - 1].ready then 1 else 0)
  }

  /** The value Multiplayer_UpdateLobby returns. */
  predicate ReadyToStart(ps: seq<PlayerInfo>)
  {
    CountConnected(ps) >= 2 && CountReady(ps) == CountConnected(ps)
  }

  /** The two counters agree exactly when every connected player is ready. */
  lemma {:induction false} ReadyCountIff(ps: seq<PlayerInfo>)
    ensures CountReady(ps) <= CountConnected(ps) <= |ps|
    ensures CountReady(ps) == CountConnected(ps) <==> forall k | 0 <= k < |ps| :: ps[k].connected ==> ps[k].ready
    decreases |ps|
  {
    if ps != [] {
      var init := ps[..|ps| - 1];
      ReadyCountIff(init);
      if CountReady(ps) == CountConnected(ps) {
        assert CountReady(init) == CountConnected(init);
        forall k | 0 <= k < |ps| && ps[k].connected
          ensures ps[k].ready
        {
          if k < |ps| - 1 {
            assert init[k] == ps[k];
          }
        }
      }
      if forall k | 0 <= k < |ps| :: ps[k].connected ==> ps[k].ready {
        forall k | 0 <= k < |init| && init[k].connected
          ensures init[k].ready
        {
          assert init[k] == ps[k];
        }
      }
    }
  }

  /** Multiplayer_UpdateLobby's result, stated without counters. */
  lemma ReadyToStartIff(ps: seq<PlayerInfo>)
    ensures ReadyToStart(ps) <==>
      (CountConnected(ps) >= 2 && forall k | 0 <= k < |ps| :: ps[k].connected ==> ps[k].ready)
  {
    ReadyCountIff(ps);
  }

  // ---------------------------------------------------------------------
  // The race-time receiver
  // ---------------------------------------------------------------------

  datatype RaceInbox = RaceInbox(players: seq<PlayerInfo>, clock: int, buffer: seq<Byte>, cars: seq<CarValue>)

  predicate RaceInboxShape(s: RaceInbox)
  {
    |s.players| == MAX_MULTIPLAYER_PLAYERS && 0 <= s.clock < U32_LIMIT && |s.buffer| == PACKET_SIZE
  }

  /** The validation Multiplayer_ReceiveCarStates applies. */
  predicate AcceptsCar(p: seq<Byte>, carCount: int, me: int)
    requires |p| == PACKET_SIZE
  {
    p[0] == PROTOCOL_VERSION && p[1] == MSG_CAR_UPDATE && p[2] < carCount && p[2] != me
  }

  /**
   * The car receive loop: each accepted packet overwrites its sender's car,
   * marks the sender connected and stamps it with a fresh getTimeMs().
   * Cars at or beyond carCount, the local car and the local slot never
   * change, and no readiness flag changes.
   */
  function ReceiveCars(start: RaceInbox, datagrams: seq<seq<Byte>>, carCount: int, me: int): (r: RaceInbox)
    requires RaceInboxShape(start) && carCount <= MAX_MULTIPLAYER_PLAYERS && carCount <= |start.cars|
    requires forall d | d in datagrams :: |d| > 0
    ensures RaceInboxShape(r) && |r.cars| == |start.cars|
    ensures forall i | 0 <= i < |r.cars| && (i >= carCount || i == me) :: r.cars[i] == start.cars[i]
    ensures forall k | 0 <= k < MAX_MULTIPLAYER_PLAYERS && (k >= carCount || k == me) ::
      r.players[k] == start.players[k]
    ensures forall k | 0 <= k < MAX_MULTIPLAYER_PLAYERS :: r.players[k].ready == start.players[k].ready
    ensures forall k | 0 <= k < MAX_MULTIPLAYER_PLAYERS :: start.players[k].connected ==> r.players[k].connected
    decreases |datagrams|
  {
    if datagrams == [] then start
    else CarStep(ReceiveCars(start, datagrams[..|datagrams| - 1], carCount, me), datagrams[|datagrams| - 1], carCount, me)
  }

  /**
   * One read of the car receive loop: a rejected datagram only leaves its
   * bytes in the buffer; an accepted one overwrites its sender's car from the
   * packet, marks the sender connected and stamps it with the next tick.
   */
  function CarStep(prev: RaceInbox, d: seq<Byte>, carCount: int, me: int): (r: RaceInbox)
    requires RaceInboxShape(prev) && carCount <= MAX_MULTIPLAYER_PLAYERS && carCount <= |prev.cars| && |d| > 0
    ensures RaceInboxShape(r) && |r.cars| == |prev.cars|
    ensures var b := Fill(prev.buffer, d);
      !AcceptsCar(b, carCount, me) ==>
        r.buffer == b && r.cars == prev.cars && r.players == prev.players && r.clock == prev.clock
    ensures var b := Fill(prev.buffer, d);
      var t := (prev.clock + FRAME_MS) % U32_LIMIT;
      AcceptsCar(b, carCount, me) ==>
        0 <= b[2] < carCount && b[2] != me && r.buffer == b && r.clock == t &&
        r.cars == prev.cars[b[2] := ApplyCarPacket(prev.cars[b[2]], b)] &&
        r.players == prev.players[b[2] := prev.players[b[2]].(connected := true, lastPacketTime := t)]
  {
    var b := Fill(prev.buffer, d);
    if AcceptsCar(b, carCount, me) then
      var id := b[2];
      var t := (prev.clock + FRAME_MS) % U32_LIMIT;
      RaceInbox(prev.players[id := prev.players[id].(connected := true, lastPacketTime := t)], t, b,
                prev.cars[id := ApplyCarPacket(prev.cars[id], b)])
    else
      prev.(buffer := b)
  }

  /** The buffers the car receive loop accepted, in the order it read them. */
  function AcceptedCars(start: RaceInbox, datagrams: seq<seq<Byte>>, carCount: int, me: int): (acc: seq<seq<Byte>>)
    requires RaceInboxShape(start) && carCount <= MAX_MULTIPLAYER_PLAYERS && carCount <= |start.cars|
    requires forall d | d in datagrams :: |d| > 0
    ensures forall p | p in acc :: |p| == PACKET_SIZE && AcceptsCar(p, carCount, me)
    decreases |datagrams|
  {
    if datagrams == [] then []
    else
      var prev := ReceiveCars(start, datagrams[..|datagrams| - 1], carCount, me);
      var b := Fill(prev.buffer, datagrams[|datagrams| - 1]);
      AcceptedCars(start, datagrams[..|datagrams| - 1], carCount, me) + (if AcceptsCar(b, carCount, me) then [b] else [])
  }

  /** The last of the accepted packets that names sender i, if any. */
  function LastFrom(acc: seq<seq<Byte>>, i: int): (r: Option<seq<Byte>>)
    requires forall p | p in acc :: |p| == PACKET_SIZE
    ensures r.Some? ==> r.value in acc && r.value[2] == i
  {
    if acc == [] then None
    else if acc[|acc| - 1][2] == i then Some(acc[|acc| - 1])
    else LastFrom(acc[..|acc| - 1], i)
  }

  /** A packet overwrites every field an earlier one set. */
  lemma ApplyCarPacketOverwrites(v: CarValue, p: seq<Byte>, q: seq<Byte>)
    requires |p| == PACKET_SIZE && |q| == PACKET_SIZE
    ensures ApplyCarPacket(ApplyCarPacket(v, p), q) == ApplyCarPacket(v, q)
  {
  }

  /**
   * After the car receive loop, the car and slot of a sender that no accepted
   * packet names are as they were; otherwise the car holds the fields of the
   * last accepted packet from that sender, and the sender is connected.
   */
  lemma {:induction false} ReceiveCarsLastPacketWins(start: RaceInbox, datagrams: seq<seq<Byte>>, carCount: int, me: int, i: int)
    requires RaceInboxShape(start) && carCount <= MAX_MULTIPLAYER_PLAYERS && carCount <= |start.cars|
    requires forall d | d in datagrams :: |d| > 0
    requires 0 <= i < |start.cars|
    ensures var r := ReceiveCars(start, datagrams, carCount, me);
      var last := LastFrom(AcceptedCars(start, datagrams, carCount, me), i);
      (last.None? ==> r.cars[i] == start.cars[i] && (i < MAX_MULTIPLAYER_PLAYERS ==> r.players[i] == start.players[i])) &&
      (last.Some? ==> i < carCount && i != me && r.cars[i] == ApplyCarPacket(start.cars[i], last.value) &&
                      r.players[i].connected)
    decreases |datagrams|
  {
    if datagrams != [] {
      var pre := datagrams[..|datagrams| - 1];
      assert forall e | e in pre :: e in datagrams;
      ReceiveCarsLastPacketWins(start, pre, carCount, me, i);
      ReceiveCarsStep(start, datagrams, carCount, me, i);
    }
  }

  /** The inductive case of ReceiveCarsLastPacketWins: unfold the last read. */
  lemma {:induction false} ReceiveCarsStep(start: RaceInbox, datagrams: seq<seq<Byte>>, carCount: int, me: int, i: int)
    requires RaceInboxShape(start) && carCount <= MAX_MULTIPLAYER_PLAYERS && carCount <= |start.cars|
    requires forall d | d in datagrams :: |d| > 0
    requires 0 <= i < |start.cars| && datagrams != []
    requires var pre := datagrams[..|datagrams| - 1];
      (forall e | e in pre :: |e| > 0) &&
      var r := ReceiveCars(start, pre, carCount, me);
      var last := LastFrom(AcceptedCars(start, pre, carCount, me), i);
      (last.None? ==> r.cars[i] == start.cars[i] && (i < MAX_MULTIPLAYER_PLAYERS ==> r.players[i] == start.players[i])) &&
      (last.Some? ==> i < carCount && i != me && r.cars[i] == ApplyCarPacket(start.cars[i], last.value) &&
                      r.players[i].connected)
    ensures var r := ReceiveCars(start, datagrams, carCount, me);
      var last := LastFrom(AcceptedCars(start, datagrams, carCount, me), i);
      (last.None? ==> r.cars[i] == start.cars[i] && (i < MAX_MULTIPLAYER_PLAYERS ==> r.players[i] == start.players[i])) &&
      (last.Some? ==> i < carCount && i != me && r.cars[i] == ApplyCarPacket(start.cars[i], last.value) &&
                      r.players[i].connected)
  {
    var pre := datagrams[..|datagrams| - 1];
    var d := datagrams[|datagrams| - 1];
    var prev := ReceiveCars(start, pre, carCount, me);
    var b := Fill(prev.buffer, d);
    var accPre := AcceptedCars(start, pre, carCount, me);
    var r := CarStep(prev, d, carCount, me);
    ReceiveCarsUnfold(start, datagrams, carCount, me);
    LastPacketStep(start, prev, r, accPre, b, carCount, me, i);
  }

  /** ReceiveCars and AcceptedCars after one more read. */
  lemma ReceiveCarsUnfold(start: RaceInbox, datagrams: seq<seq<Byte>>, carCount: int, me: int)
    requires RaceInboxShape(start) && carCount <= MAX_MULTIPLAYER_PLAYERS && carCount <= |start.cars|
    requires forall d | d in datagrams :: |d| > 0
    requires datagrams != []
    ensures var pre := datagrams[..|datagrams| - 1];
      var d := datagrams[|datagrams| - 1];
      var prev := ReceiveCars(start, pre, carCount, me);
      var b := Fill(prev.buffer, d);
      ReceiveCars(start, datagrams, carCount, me) == CarStep(prev, d, carCount, me) &&
      AcceptedCars(start, datagrams, carCount, me) ==
        AcceptedCars(start, pre, carCount, me) + (if AcceptsCar(b, carCount, me) then [b] else [])
  {
  }


  /** The inductive step of ReceiveCarsLastPacketWins: one more read. */
  lemma {:induction false} LastPacketStep(start: RaceInbox, prev: RaceInbox, r: RaceInbox,
                                          accPre: seq<seq<Byte>>, b: seq<Byte>, carCount: int, me: int, i: int)
    requires RaceInboxShape(start) && RaceInboxShape(prev) && RaceInboxShape(r) && |b| == PACKET_SIZE
    requires carCount <= MAX_MULTIPLAYER_PLAYERS && carCount <= |prev.cars|
    requires 0 <= i < |start.cars| == |prev.cars| == |r.cars|
    requires forall p | p in accPre :: |p| == PACKET_SIZE
    requires !AcceptsCar(b, carCount, me) ==> r.cars == prev.cars && r.players == prev.players
    requires AcceptsCar(b, carCount, me) ==>
      0 <= b[2] < carCount && b[2] != me &&
      r.cars == prev.cars[b[2] := ApplyCarPacket(prev.cars[b[2]], b)] &&
      r.players == prev.players[b[2] := prev.players[b[2]].(connected := true, lastPacketTime := r.clock)]
    requires var last := LastFrom(accPre, i);
      (last.None? ==> prev.cars[i] == start.cars[i] && (i < MAX_MULTIPLAYER_PLAYERS ==> prev.players[i] == start.players[i])) &&
      (last.Some? ==> i < carCount && i != me && prev.cars[i] == ApplyCarPacket(start.cars[i], last.value) &&
                      prev.players[i].connected)
    ensures var last := LastFrom(accPre + (if AcceptsCar(b, carCount, me) then [b] else []), i);
      (last.None? ==> r.cars[i] == start.cars[i] && (i < MAX_MULTIPLAYER_PLAYERS ==> r.players[i] == start.players[i])) &&
      (last.Some? ==> i < carCount && i != me && r.cars[i] == ApplyCarPacket(start.cars[i], last.value) &&
                      r.players[i].connected)
  {
    var acc := accPre + (if AcceptsCar(b, carCount, me) then [b] else []);
    if AcceptsCar(b, carCount, me) {
      assert acc[..|acc| - 1] == accPre;
      if b[2] == i {
        var lastPre := LastFrom(accPre, i);
        if lastPre.Some? {
          ApplyCarPacketOverwrites(start.cars[i], lastPre.value, b);
        }
      }
    } else {
      assert acc == accPre;
    }
  }

  // ---------------------------------------------------------------------
  // The module state
  // ---------------------------------------------------------------------

  datatype LobbyVars = LobbyVars(myPlayerId: int, initialized: bool, msCounter: int,
                                 lastLobbyBroadcastMs: int, sent: seq<seq<Byte>>)

  /** The statics of multiplayer.c. */
  class Lobby {
    var myPlayerId: int
    const players: array<PlayerInfo>
    var initialized: bool
    var msCounter: int
    var lastLobbyBroadcastMs: int
    var sent: seq<seq<Byte>>

    function Vars(): LobbyVars
      reads this
    {
      LobbyVars(myPlayerId, initialized, msCounter, lastLobbyBroadcastMs, sent)
    }

    ghost predicate Valid()
      reads this
    {
      players.Length == MAX_MULTIPLAYER_PLAYERS &&
      0 <= msCounter < U32_LIMIT && 0 <= lastLobbyBroadcastMs < U32_LIMIT &&
      -1 <= myPlayerId < MAX_MULTIPLAYER_PLAYERS &&
      (initialized ==> 0 <= myPlayerId)
    }

    /** The statics before Multiplayer_Init. */
    constructor()
      ensures Valid() && fresh(players)
      ensures players[..] == seq(MAX_MULTIPLAYER_PLAYERS, _ => NO_PLAYER)
      ensures Vars() == LobbyVars(-1, false, 0, 0, [])
    {
      myPlayerId := -1;
      players := new PlayerInfo[MAX_MULTIPLAYER_PLAYERS](_ => NO_PLAYER);
      initialized := false;
      msCounter := 0;
      lastLobbyBroadcastMs := 0;
      sent := [];
    }

    /** getTimeMs: one frame of 16 ms on a wrapping 32-bit counter. */
    method GetTimeMs() returns (t: int)
      requires Valid()
      modifies this
      ensures Valid()
      ensures t == (old(msCounter) + FRAME_MS) % U32_LIMIT
      ensures Vars() == old(Vars()).(msCounter := t)
    {
      msCounter := (msCounter + FRAME_MS) % U32_LIMIT;
      t := msCounter;
    }

    /**
     * Multiplayer_Init without the console and Wi-Fi calls: their outcomes
     * are the parameters, and the player id comes from the last MAC byte.
     */
    method Init(wifiOk: bool, socketOk: bool, macLastByte: int) returns (id: int)
      requires Valid() && 0 <= macLastByte < 256
      modifies this, players
      ensures Valid()
      ensures sent == old(sent) + (if old(initialized) then [LobbyPacket(MSG_DISCONNECT, old(myPlayerId), false)] else [])
      ensures !(wifiOk && socketOk) ==>
        id == -1 && !initialized && players[..] == old(players[..]) &&
        myPlayerId == (if old(initialized) then -1 else old(myPlayerId)) && msCounter == old(msCounter)
      ensures wifiOk && socketOk ==>
        id == macLastByte % MAX_MULTIPLAYER_PLAYERS && myPlayerId == id && initialized &&
        msCounter == (old(msCounter) + FRAME_MS) % U32_LIMIT && lastLobbyBroadcastMs == msCounter &&
        var t := msCounter;
        players[..] == seq(MAX_MULTIPLAYER_PLAYERS, k => if k == id then PlayerInfo(true, false, t) else NO_PLAYER)
    {
      if initialized {
        Cleanup();
      }
      if !wifiOk || !socketOk {
        return -1;
      }
      myPlayerId := macLastByte % MAX_MULTIPLAYER_PLAYERS;
      var i := 0;
      while i < MAX_MULTIPLAYER_PLAYERS
        invariant 0 <= i <= MAX_MULTIPLAYER_PLAYERS
        invariant forall k | 0 <= k < i :: players[k] == NO_PLAYER
        modifies players
      {
        players[i] := NO_PLAYER;
        i := i + 1;
      }
      var t := GetTimeMs();
      players[myPlayerId] := PlayerInfo(true, false, t);
      lastLobbyBroadcastMs := t;
      initialized := true;
      id := myPlayerId;
    }

    /** Multiplayer_Cleanup without the socket calls: announce DISCONNECT and forget the id. */
    method Cleanup()
      requires Valid()
      modifies this
      ensures Valid()
      ensures !old(initialized) ==> Vars() == old(Vars())
      ensures old(initialized) ==> (Vars() ==
        LobbyVars(-1, false, old(msCounter), 0, old(sent) + [LobbyPacket(MSG_DISCONNECT, old(myPlayerId), false)]))
    {
      if !initialized {
        return;
      }
      sent := sent + [LobbyPacket(MSG_DISCONNECT, myPlayerId, false)];
      initialized := false;
      lastLobbyBroadcastMs := 0;
      myPlayerId := -1;
    }

    /** Multiplayer_GetConnectedCount. */
    method GetConnectedCount() returns (count: int)
      requires Valid()
      ensures count == CountConnected(players[..])
      ensures 0 <= count <= MAX_MULTIPLAYER_PLAYERS
    {
      count := 0;
      var i := 0;
      while i < MAX_MULTIPLAYER_PLAYERS
        invariant 0 <= i <= MAX_MULTIPLAYER_PLAYERS
        invariant count == CountConnected(players[..i])
      {
        assert players[..i + 1][..i] == players[..i];
        if players[i].connected {
          count := count + 1;
        }
        i := i + 1;
      }
      assert players[..MAX_MULTIPLAYER_PLAYERS] == players[..];
      ReadyCountIff(players[..]);
    }

    /** Multiplayer_IsPlayerConnected: ids outside 0..7 are never connected. */
    predicate IsPlayerConnected(playerId: int)
      requires Valid()
      reads this, players
      ensures IsPlayerConnected(playerId) ==> 0 <= playerId < MAX_MULTIPLAYER_PLAYERS
    {
      0 <= playerId < MAX_MULTIPLAYER_PLAYERS && players[playerId].connected
    }

    /** Multiplayer_IsPlayerReady: ids outside 0..7 are never ready. */
    predicate IsPlayerReady(playerId: int)
      requires Valid()
      reads this, players
      ensures IsPlayerReady(playerId) ==> 0 <= playerId < MAX_MULTIPLAYER_PLAYERS
    {
      0 <= playerId < MAX_MULTIPLAYER_PLAYERS && players[playerId].ready
    }

    /** resetLobbyState. */
    method ResetLobbyState()
      requires Valid()
      modifies players
      ensures players[..] == ResetOthers(old(players[..]), myPlayerId)
    {
      var i := 0;
      while i < MAX_MULTIPLAYER_PLAYERS
        invariant 0 <= i <= MAX_MULTIPLAYER_PLAYERS
        invariant forall k | 0 <= k < i :: players[k] == ResetOthers(old(players[..]), myPlayerId)[k]
        invariant forall k | i <= k < MAX_MULTIPLAYER_PLAYERS :: players[k] == old(players[k])
      {
        if i != myPlayerId {
          players[i] := players[i].(connected := false, ready := false);
        }
        i := i + 1;
      }
    }

    /** Multiplayer_JoinLobby: forget the other players, announce, and mark self not ready. */
    method JoinLobby()
      requires Valid() && 0 <= myPlayerId < MAX_MULTIPLAYER_PLAYERS
      modifies this, players
      ensures Valid()
      ensures players[..] == ResetOthers(old(players[..]), old(myPlayerId))[old(myPlayerId) := old(players[myPlayerId]).(ready := false)]
      ensures var t := (old(msCounter) + FRAME_MS) % U32_LIMIT;
        Vars() == old(Vars()).(msCounter := t, lastLobbyBroadcastMs := t,
                               sent := old(sent) + [LobbyPacket(MSG_LOBBY_JOIN, old(myPlayerId), false)])
      ensures forall k | 0 <= k < MAX_MULTIPLAYER_PLAYERS :: !players[k].ready
    {
      ResetLobbyState();
      sent := sent + [LobbyPacket(MSG_LOBBY_JOIN, myPlayerId, false)];
      players[myPlayerId] := players[myPlayerId].(ready := false);
      var t := GetTimeMs();
      lastLobbyBroadcastMs := t;
    }

    /** The heartbeat at the head of Multiplayer_UpdateLobby. */
    method Heartbeat(now: int)
      requires Valid() && 0 <= myPlayerId < MAX_MULTIPLAYER_PLAYERS && 0 <= now < U32_LIMIT
      modifies this, players
      ensures Valid()
      ensures var beat := U32Sub(now, old(lastLobbyBroadcastMs)) >= HEARTBEAT_INTERVAL_MS;
        var me := old(myPlayerId);
        var self := old(players[myPlayerId]);
        (beat ==> players[..] == old(players[..])[me := self.(lastPacketTime := now)] &&
                  Vars() == old(Vars()).(lastLobbyBroadcastMs := now,
                                         sent := old(sent) + [LobbyPacket(MSG_LOBBY_UPDATE, me, self.ready)])) &&
        (!beat ==> players[..] == old(players[..]) && Vars() == old(Vars()))
    {
      if U32Sub(now, lastLobbyBroadcastMs) >= HEARTBEAT_INTERVAL_MS {
        sent := sent + [LobbyPacket(MSG_LOBBY_UPDATE, myPlayerId, players[myPlayerId].ready)];
        lastLobbyBroadcastMs := now;
        players[myPlayerId] := players[myPlayerId].(lastPacketTime := now);
      }
    }

    /** The receive loop of Multiplayer_UpdateLobby. */
    method ReceiveLobbyPackets(datagrams: seq<seq<Byte>>, stale: seq<Byte>, now: int)
      requires Valid() && |stale| == PACKET_SIZE && forall d | d in datagrams :: |d| > 0
      modifies players
      ensures players[..] == ReceiveLobby(Inbox(old(players[..]), stale), datagrams, myPlayerId, now).players
    {
      var buffer: seq<Byte> := stale;
      var n := 0;
      while n < |datagrams|
        invariant 0 <= n <= |datagrams| && |buffer| == PACKET_SIZE
        invariant Inbox(players[..], buffer) == ReceiveLobby(Inbox(old(players[..]), stale), datagrams[..n], myPlayerId, now)
      {
        assert datagrams[..n + 1][..n] == datagrams[..n];
        buffer := Fill(buffer, datagrams[n]);
        if buffer[0] == PROTOCOL_VERSION && buffer[2] < MAX_MULTIPLAYER_PLAYERS && buffer[2] != myPlayerId {
          var id := buffer[2];
          if buffer[1] == MSG_LOBBY_JOIN {
            players[id] := PlayerInfo(true, false, now);
          } else if buffer[1] == MSG_LOBBY_UPDATE || buffer[1] == MSG_READY {
            players[id] := PlayerInfo(true, buffer[4] != 0, now);
          } else if buffer[1] == MSG_DISCONNECT {
            players[id] := players[id].(connected := false, ready := false);
          }
        }
        n := n + 1;
      }
      assert datagrams[..|datagrams|] == datagrams;
    }

    /** The timeout loop of Multiplayer_UpdateLobby. */
    method ExpirePeers(now: int)
      requires Valid()
      modifies players
      ensures players[..] == TimeOut(old(players[..]), myPlayerId, now)
    {
      var i := 0;
      while i < MAX_MULTIPLAYER_PLAYERS
        invariant 0 <= i <= MAX_MULTIPLAYER_PLAYERS
        invariant forall k | 0 <= k < i :: players[k] == Expire(old(players[k]), k, myPlayerId, now)
        invariant forall k | i <= k < MAX_MULTIPLAYER_PLAYERS :: players[k] == old(players[k])
      {
        if i != myPlayerId && players[i].connected {
          if U32Sub(now, players[i].lastPacketTime) > PLAYER_TIMEOUT_MS {
            players[i] := players[i].(connected := false, ready := false);
          }
        }
        i := i + 1;
      }
    }

    /** The counting loop at the end of Multiplayer_UpdateLobby. */
    method CountPlayers() returns (connectedCount: int, readyCount: int)
      requires Valid()
      ensures connectedCount == CountConnected(players[..]) && readyCount == CountReady(players[..])
    {
      connectedCount, readyCount := 0, 0;
      var i := 0;
      while i < MAX_MULTIPLAYER_PLAYERS
        invariant 0 <= i <= MAX_MULTIPLAYER_PLAYERS
        invariant connectedCount == CountConnected(players[..i]) && readyCount == CountReady(players[..i])
      {
        assert players[..i + 1][..i] == players[..i];
        if players[i].connected {
          connectedCount := connectedCount + 1;
          if players[i].ready {
            readyCount := readyCount + 1;
          }
        }
        i := i + 1;
      }
      assert players[..MAX_MULTIPLAYER_PLAYERS] == players[..];
    }

    /**
     * Multiplayer_UpdateLobby: heartbeat when due, apply every received
     * packet, time out silent peers, and report whether the race can start.
     */
    method UpdateLobby(datagrams: seq<seq<Byte>>, stale: seq<Byte>) returns (start: bool)
      requires Valid() && 0 <= myPlayerId < MAX_MULTIPLAYER_PLAYERS
      requires |stale| == PACKET_SIZE && forall d | d in datagrams :: |d| > 0
      modifies this, players
      ensures Valid()
      ensures var now := (old(msCounter) + FRAME_MS) % U32_LIMIT;
        var beat := U32Sub(now, old(lastLobbyBroadcastMs)) >= HEARTBEAT_INTERVAL_MS;
        var me := old(myPlayerId);
        var self := old(players[myPlayerId]);
        var afterBeat := if beat then old(players[..])[me := self.(lastPacketTime := now)] else old(players[..]);
        players[..] == TimeOut(ReceiveLobby(Inbox(afterBeat, stale), datagrams, me, now).players, me, now) &&
        Vars() == old(Vars()).(msCounter := now,
                               lastLobbyBroadcastMs := if beat then now else old(lastLobbyBroadcastMs),
                               sent := old(sent) + if beat then [LobbyPacket(MSG_LOBBY_UPDATE, me, self.ready)] else []) &&
        players[me] == afterBeat[me]
      ensures start == ReadyToStart(players[..])
      ensures start <==> (CountConnected(players[..]) >= 2 &&
        forall k | 0 <= k < MAX_MULTIPLAYER_PLAYERS :: players[k].connected ==> players[k].ready)
    {
      var now := GetTimeMs();
      Heartbeat(now);
      ReceiveLobbyPackets(datagrams, stale, now);
      ExpirePeers(now);
      var connectedCount, readyCount := CountPlayers();
      start := connectedCount >= 2 && readyCount == connectedCount;
      ReadyToStartIff(players[..]);
    }

    /** Multiplayer_SetReady: set the local flag and announce it. */
    method SetReady(ready: bool)
      requires Valid() && 0 <= myPlayerId < MAX_MULTIPLAYER_PLAYERS
      modifies this, players
      ensures Valid()
      ensures players[..] == old(players[..])[old(myPlayerId) := old(players[myPlayerId]).(ready := ready)]
      ensures Vars() == old(Vars()).(sent := old(sent) + [LobbyPacket(MSG_READY, old(myPlayerId), ready)])
    {
      players[myPlayerId] := players[myPlayerId].(ready := ready);
      sent := sent + [LobbyPacket(MSG_READY, myPlayerId, ready)];
    }

    /** Multiplayer_SendCarState: the id byte is myPlayerID narrowed to uint8_t. */
    method SendCarState(car: Car)
      requires Valid() && CarFieldsInRange(car.State())
      modifies this
      ensures Valid()
      ensures Vars() == old(Vars()).(sent := old(sent) + [CarPacket(myPlayerId % 256, car.State())])
    {
      sent := sent + [CarPacket(myPlayerId % 256, car.State())];
    }

    /** One iteration of the Multiplayer_ReceiveCarStates loop. */
    method ReceiveCarPacket(cars: seq<Car>, carCount: int, buffer: seq<Byte>, d: seq<Byte>) returns (b: seq<Byte>)
      requires Valid() && carCount <= MAX_MULTIPLAYER_PLAYERS && carCount <= |cars|
      requires forall i, j | 0 <= i < j < |cars| :: cars[i] != cars[j]
      requires |buffer| == PACKET_SIZE && |d| > 0
      modifies this, players, cars
      ensures Valid() && Vars() == old(Vars()).(msCounter := msCounter)
      ensures RaceInbox(players[..], msCounter, b, CarValues(cars)) ==
        CarStep(RaceInbox(old(players[..]), old(msCounter), buffer, old(CarValues(cars))), d, carCount, myPlayerId)
    {
      b := Fill(buffer, d);
      if b[0] == PROTOCOL_VERSION && b[1] == MSG_CAR_UPDATE && b[2] < carCount && b[2] != myPlayerId {
        var id := b[2];
        OverwriteCar(cars[id], b);
        assert CarValues(cars) == old(CarValues(cars))[id := ApplyCarPacket(old(cars[id].State()), b)];
        MarkHeard(id);
      }
    }

    /** The five field writes into the sender's car. */
    static method OverwriteCar(other: Car, p: seq<Byte>)
      requires |p| == PACKET_SIZE
      modifies other
      ensures other.State() == ApplyCarPacket(old(other.State()), p)
    {
      other.position := Vec2(I32At(p, 4), I32At(p, 8));
      other.speed := I32At(p, 12);
      other.angle512 := I32At(p, 16);
      other.lap := I32At(p, 20);
      other.item := I32At(p, 24);
    }

    /** The sender is marked connected and stamped with a fresh getTimeMs(). */
    method MarkHeard(id: int)
      requires Valid() && 0 <= id < MAX_MULTIPLAYER_PLAYERS
      modifies this, players
      ensures Valid()
      ensures var t := (old(msCounter) + FRAME_MS) % U32_LIMIT;
        Vars() == old(Vars()).(msCounter := t) &&
        players[..] == old(players[..])[id := old(players[id]).(connected := true, lastPacketTime := t)]
    {
      players[id] := players[id].(connected := true);
      var t := GetTimeMs();
      players[id] := players[id].(lastPacketTime := t);
    }

    /** Multiplayer_ReceiveCarStates. */
    method ReceiveCarStates(cars: seq<Car>, carCount: int, datagrams: seq<seq<Byte>>, stale: seq<Byte>)
      requires Valid() && carCount <= MAX_MULTIPLAYER_PLAYERS && carCount <= |cars|
      requires forall i, j | 0 <= i < j < |cars| :: cars[i] != cars[j]
      requires |stale| == PACKET_SIZE && forall d | d in datagrams :: |d| > 0
      modifies this, players, cars
      ensures Valid()
      ensures var r := ReceiveCars(RaceInbox(old(players[..]), old(msCounter), stale, old(CarValues(cars))),
                                   datagrams, carCount, old(myPlayerId));
        players[..] == r.players && CarValues(cars) == r.cars &&
        Vars() == old(Vars()).(msCounter := r.clock)
    {
      ghost var start := RaceInbox(players[..], msCounter, stale, CarValues(cars));
      var buffer: seq<Byte> := stale;
      var n := 0;
      while n < |datagrams|
        invariant 0 <= n <= |datagrams| && |buffer| == PACKET_SIZE
        invariant Valid() && Vars() == old(Vars()).(msCounter := msCounter)
        invariant RaceInbox(players[..], msCounter, buffer, CarValues(cars)) ==
          ReceiveCars(start, datagrams[..n], carCount, myPlayerId)
      {
        assert datagrams[..n + 1][..n] == datagrams[..n];
        buffer := ReceiveCarPacket(cars, carCount, buffer, datagrams[n]);
        n := n + 1;
      }
      assert datagrams[..|datagrams|] == datagrams;
    }
  }

  // ---------------------------------------------------------------------
  // What the device makes of the Python tools' packets
  // ---------------------------------------------------------------------

  /**
   * The Python header is 8 bytes, the C header 4, so the byte the device
   * reads as `isReady` is the low byte of the Python sequence number: a
   * Python READY is seen as ready exactly when its sequence number is not a
   * multiple of 256, whatever flag it carries.
   */
  lemma PythonReadyFlagIsSequenceByte(playerId: int, sequence: int, isReady: bool)
    requires W.PackHeader(W.MSG_READY, playerId, sequence).Some?
    ensures var p := W.Assemble(W.PackHeader(W.MSG_READY, playerId, sequence), Some(W.ReadyPayload(isReady)));
      p.Some? && |p.value| == PACKET_SIZE && p.value[1] == MSG_READY &&
      (LobbyIsReady(p.value) <==> sequence % 256 != 0)
  {
    W.Pow256Values();
    var h := W.PackHeader(W.MSG_READY, playerId, sequence).value;
    assert h == [W.PROTOCOL_VERSION, W.MSG_READY, playerId, 0] + W.LittleEndian(sequence, 4);
    assert h[4] == sequence % 256;
  }

  /**
   * Python's ITEM_PLACED is 4, the device's DISCONNECT: a Python client that
   * places an item is dropped from the device's peer table.
   */
  lemma PythonItemPlacedDisconnects(ps: seq<PlayerInfo>, me: int, now: int,
                                    playerId: int, sequence: int, payload: seq<Byte>)
    requires |ps| == MAX_MULTIPLAYER_PLAYERS && |payload| == W.PAYLOAD_SIZE
    requires 0 <= playerId < MAX_MULTIPLAYER_PLAYERS && playerId != me && 0 <= sequence < U32_LIMIT
    ensures var p := W.Assemble(W.PackHeader(W.MSG_ITEM_PLACED, playerId, sequence), Some(payload));
      p.Some? && |p.value| == PACKET_SIZE &&
      ApplyLobbyPacket(ps, p.value, me, now) == ps[playerId := ps[playerId].(connected := false, ready := false)]
  {
    W.PacketShape(W.MSG_ITEM_PLACED, playerId, sequence, Some(payload));
    var p := W.Assemble(W.PackHeader(W.MSG_ITEM_PLACED, playerId, sequence), Some(payload)).value;
    assert p[..4] == [W.PROTOCOL_VERSION, W.MSG_ITEM_PLACED, playerId, 0];
    assert p[0] == PROTOCOL_VERSION && p[1] == MSG_DISCONNECT && p[2] == playerId;
  }

  /**
   * Python's DISCONNECT is 6, a type the device ignores: a Python client that
   * leaves is dropped only by the 3-second timeout.
   */
  lemma PythonDisconnectIgnored(ps: seq<PlayerInfo>, me: int, now: int, playerId: int, sequence: int)
    requires |ps| == MAX_MULTIPLAYER_PLAYERS
    requires W.PackHeader(W.MSG_DISCONNECT, playerId, sequence).Some?
    ensures var p := W.Assemble(W.PackHeader(W.MSG_DISCONNECT, playerId, sequence), Some(W.DisconnectPayload()));
      p.Some? && |p.value| == PACKET_SIZE && ApplyLobbyPacket(ps, p.value, me, now) == ps
  {
    W.PacketShape(W.MSG_DISCONNECT, playerId, sequence, Some(W.DisconnectPayload()));
    var p := W.Assemble(W.PackHeader(W.MSG_DISCONNECT, playerId, sequence), Some(W.DisconnectPayload())).value;
    assert p[..4] == [W.PROTOCOL_VERSION, W.MSG_DISCONNECT, playerId, 0];
    assert p[1] == W.MSG_DISCONNECT;
  }
}
