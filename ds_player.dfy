/**
 * The simulated DS player of tools/network/simulate_ds_player.py: its
 * session state, the packets it builds and sends, the receive filter, the
 * keyboard commands of its lobby and race modes, and the cadence of its
 * heartbeats and car updates.
 *
 * The socket is an oracle: `sendOk` says whether `sendto` succeeds, and a
 * received datagram is passed in. Times are the wall-clock readings the
 * loops would take. The float trigonometry of update_car_physics is passed
 * in as the displacement it computes.
 */
module DsSimulator {
  import opened FixedMath
  import opened WireFormat

  const HEARTBEAT_INTERVAL: real := 1.0
  const CAR_UPDATE_INTERVAL: real := 1.0 / 15.0
  const ITEM_SPEED_Q16_8: int := 2560
  const POSITION_MIN: real := 50.0
  const POSITION_MAX: real := 950.0

  /** A well-formed datagram stamped by player `playerId`. */
  predicate Stamped(p: seq<Byte>, playerId: int)
  {
    |p| == PACKET_SIZE && p[0] == PROTOCOL_VERSION && p[2] == playerId && p[3] == 0
  }

  function SequenceOf(p: seq<Byte>): nat
    requires |p| >= HEADER_SIZE
  {
    UnpackU32(p[4..8])
  }

  /** str.lower() on the characters the commands compare against. */
  function Lower(c: char): (r: char)
    ensures 'A' <= c <= 'Z' ==> 'a' <= r <= 'z'
    ensures !('A' <= c <= 'Z') ==> r == c
  {
    if 'A' <= c <= 'Z' then (c as int - 'A' as int + 'a' as int) as char else c
  }

  /** Whether receive_packets counts a datagram: long enough and not our own. */
  predicate CountsAsReceived(data: seq<Byte>, playerId: int)
  {
    |data| >= HEADER_SIZE && data[2] != playerId
  }

  function Clamp(x: real): (r: real)
    ensures POSITION_MIN <= r <= POSITION_MAX
    ensures POSITION_MIN <= x <= POSITION_MAX ==> r == x
  {
    if x > POSITION_MAX then POSITION_MAX else if x < POSITION_MIN then POSITION_MIN else x
  }

  /** Every field of the simulator, as a value. */
  datatype PlayerState = PlayerState(
    playerId: int, sequence: int, isReady: bool, inRace: bool, running: bool,
    posX: real, posY: real, speed: real, angle: int, lap: int, item: int,
    packetsSent: int, packetsReceived: int, lastHeartbeat: real, sent: seq<seq<Byte>>)

  class SimulatedPlayer {
    var playerId: int
    var sequence: int
    var isReady: bool
    var inRace: bool
    var running: bool
    var posX: real
    var posY: real
    var speed: real
    var angle: int
    var lap: int
    var item: int
    var packetsSent: int
    var packetsReceived: int
    var lastHeartbeat: real
    /** The datagrams sendto accepted, in order. */
    var sent: seq<seq<Byte>>

    function State(): PlayerState
      reads this
    {
      PlayerState(playerId, sequence, isReady, inRace, running, posX, posY, speed, angle, lap, item,
                  packetsSent, packetsReceived, lastHeartbeat, sent)
    }

    /**
     * The angle stays a 9-bit angle, every accepted datagram is 32 bytes
     * stamped with this player's id, and their sequence numbers increase
     * strictly and stay below the counter.
     */
    predicate Valid()
      reads this
    {
      0 <= angle < ANGLE_FULL && 0 <= sequence && 0 <= packetsReceived &&
      packetsSent == |sent| &&
      (forall i | 0 <= i < |sent| :: Stamped(sent[i], playerId) && SequenceOf(sent[i]) < sequence) &&
      (forall i, j | 0 <= i < j < |sent| :: SequenceOf(sent[i]) < SequenceOf(sent[j]))
    }

    constructor(playerId: int, now: real)
      ensures Valid()
      ensures State() == PlayerState(playerId, 0, false, false, true,
        100.0 + playerId as real * 20.0, 100.0 + playerId as real * 20.0, 0.0, 0, 1, ITEM_NONE,
        0, 0, now, [])
    {
      this.playerId := playerId;
      sequence := 0;
      isReady := false;
      inRace := false;
      running := true;
      posX := 100.0 + playerId as real * 20.0;
      posY := 100.0 + playerId as real * 20.0;
      speed := 0.0;
      angle := 0;
      lap := 1;
      item := ITEM_NONE;
      packetsSent := 0;
      packetsReceived := 0;
      lastHeartbeat := now;
      sent := [];
    }

    /**
     * build_packet followed by sendto: the header is packed with the current
     * sequence number, which is then incremented whether or not the send
     * succeeds; packets_sent and the sent log grow only on success.
     */
    method Transmit(msgType: int, payload: seq<Byte>, sendOk: bool) returns (built: bool, delivered: bool)
      requires Valid() && |payload| == PAYLOAD_SIZE && 0 <= msgType < 256
      modifies this
      ensures Valid()
      ensures built == PackHeader(msgType, old(playerId), old(sequence)).Some?
      ensures delivered == (built && sendOk)
      ensures State() == old(State()).(
        sequence := old(sequence) + (if built then 1 else 0),
        packetsSent := old(packetsSent) + (if delivered then 1 else 0),
        sent := old(sent) + (if delivered then [PackHeader(msgType, old(playerId), old(sequence)).value + payload] else []))
    {
      var h := PackHeader(msgType, playerId, sequence);
      built := h.Some?;
      delivered := built && sendOk;
      if built {
        PacketShape(msgType, playerId, sequence, Some(payload));
        var p := h.value + payload;
        assert SequenceOf(p) == sequence by {
          HeaderRoundTrip(msgType, playerId, sequence, payload);
        }
        sequence := sequence + 1;
        if sendOk {
          sent := sent + [p];
          packetsSent := packetsSent + 1;
        }
      }
    }

    /** send_lobby_join: a failed header pack or send raises. */
    method SendLobbyJoin(sendOk: bool) returns (raised: bool)
      requires Valid()
      modifies this
      ensures Valid()
      ensures raised == !(PackHeader(MSG_LOBBY_JOIN, old(playerId), old(sequence)).Some? && sendOk)
      ensures var built := PackHeader(MSG_LOBBY_JOIN, old(playerId), old(sequence)).Some?;
        State() == old(State()).(
          sequence := old(sequence) + (if built then 1 else 0),
          packetsSent := old(packetsSent) + (if !raised then 1 else 0),
          sent := old(sent) + (if !raised then [PackHeader(MSG_LOBBY_JOIN, old(playerId), old(sequence)).value + ReadyPayload(old(isReady))] else []))
    {
      var built, delivered := Transmit(MSG_LOBBY_JOIN, ReadyPayload(isReady), sendOk);
      raised := !delivered;
    }

    /** send_lobby_update: a send error is swallowed; last_heartbeat moves only on success. */
    method SendLobbyUpdate(sendOk: bool, now: real) returns (raised: bool)
      requires Valid()
      modifies this
      ensures Valid()
      ensures raised == !PackHeader(MSG_LOBBY_UPDATE, old(playerId), old(sequence)).Some?
      ensures var delivered := !raised && sendOk;
        State() == old(State()).(
          sequence := old(sequence) + (if !raised then 1 else 0),
          packetsSent := old(packetsSent) + (if delivered then 1 else 0),
          lastHeartbeat := if delivered then now else old(lastHeartbeat),
          sent := old(sent) + (if delivered then [PackHeader(MSG_LOBBY_UPDATE, old(playerId), old(sequence)).value + ReadyPayload(old(isReady))] else []))
    {
      var built, delivered := Transmit(MSG_LOBBY_UPDATE, ReadyPayload(isReady), sendOk);
      raised := !built;
      if delivered {
        lastHeartbeat := now;
      }
    }

    /** send_ready: carries the current is_ready; a failed pack or send raises. */
    method SendReady(sendOk: bool) returns (raised: bool)
      requires Valid()
      modifies this
      ensures Valid()
      ensures raised == !(PackHeader(MSG_READY, old(playerId), old(sequence)).Some? && sendOk)
      ensures var built := PackHeader(MSG_READY, old(playerId), old(sequence)).Some?;
        State() == old(State()).(
          sequence := old(sequence) + (if built then 1 else 0),
          packetsSent := old(packetsSent) + (if !raised then 1 else 0),
          sent := old(sent) + (if !raised then [PackHeader(MSG_READY, old(playerId), old(sequence)).value + ReadyPayload(old(isReady))] else []))
    {
      var built, delivered := Transmit(MSG_READY, ReadyPayload(isReady), sendOk);
      raised := !delivered;
    }

    /**
     * send_car_update: the payload is packed before the header, so a car
     * field outside int32 raises without consuming a sequence number.
     */
    method SendCarUpdate(sendOk: bool) returns (raised: bool)
      requires Valid()
      modifies this
      ensures Valid()
      ensures var payload := CarPayload(CarStateOf(old(posX), old(posY), old(speed), old(angle), old(lap), old(item)));
        var built := payload.Some? && PackHeader(MSG_CAR_UPDATE, old(playerId), old(sequence)).Some?;
        raised == !(built && sendOk) &&
        State() == old(State()).(
          sequence := old(sequence) + (if built then 1 else 0),
          packetsSent := old(packetsSent) + (if !raised then 1 else 0),
          sent := old(sent) + (if !raised then [PackHeader(MSG_CAR_UPDATE, old(playerId), old(sequence)).value + payload.value] else []))
    {
      var payload := CarPayload(CarStateOf(posX, posY, speed, angle, lap, item));
      if payload.None? {
        return true;
      }
      var built, delivered := Transmit(MSG_CAR_UPDATE, payload.value, sendOk);
      raised := !delivered;
    }

    /** send_item_placed: the item leaves at the car's position and angle with speed 10.0. */
    method SendItemPlaced(itemType: int, sendOk: bool) returns (raised: bool)
      requires Valid()
      modifies this
      ensures Valid()
      ensures var payload := ItemPlacedPayload(ItemPlacement(itemType, ToQ16_8(old(posX)), ToQ16_8(old(posY)), old(angle), ITEM_SPEED_Q16_8));
        var built := payload.Some? && PackHeader(MSG_ITEM_PLACED, old(playerId), old(sequence)).Some?;
        raised == !(built && sendOk) &&
        State() == old(State()).(
          sequence := old(sequence) + (if built then 1 else 0),
          packetsSent := old(packetsSent) + (if !raised then 1 else 0),
          sent := old(sent) + (if !raised then [PackHeader(MSG_ITEM_PLACED, old(playerId), old(sequence)).value + payload.value] else []))
    {
      assert ToQ16_8(10.0) == ITEM_SPEED_Q16_8;
      var payload := ItemPlacedPayload(ItemPlacement(itemType, ToQ16_8(posX), ToQ16_8(posY), angle, ITEM_SPEED_Q16_8));
      if payload.None? {
        return true;
      }
      var built, delivered := Transmit(MSG_ITEM_PLACED, payload.value, sendOk);
      raised := !delivered;
    }

    /** send_disconnect: a send error is swallowed. */
    method SendDisconnect(sendOk: bool) returns (raised: bool)
      requires Valid()
      modifies this
      ensures Valid()
      ensures raised == !PackHeader(MSG_DISCONNECT, old(playerId), old(sequence)).Some?
      ensures var delivered := !raised && sendOk;
        State() == old(State()).(
          sequence := old(sequence) + (if !raised then 1 else 0),
          packetsSent := old(packetsSent) + (if delivered then 1 else 0),
          sent := old(sent) + (if delivered then [PackHeader(MSG_DISCONNECT, old(playerId), old(sequence)).value + DisconnectPayload()] else []))
    {
      var built, delivered := Transmit(MSG_DISCONNECT, DisconnectPayload(), sendOk);
      raised := !built;
    }

    /**
     * receive_packets for one datagram (None when recvfrom timed out): short
     * datagrams and our own packets are dropped without being counted.
     */
    method Receive(datagram: Option<seq<Byte>>) returns (kind: Option<TypeLabel>)
      requires Valid()
      modifies this
      ensures Valid()
      ensures var counted := datagram.Some? && CountsAsReceived(datagram.value, old(playerId));
        State() == old(State()).(packetsReceived := old(packetsReceived) + (if counted then 1 else 0)) &&
        (kind.Some? <==> counted) &&
        (counted ==> kind == Some(LabelOf(datagram.value[1])))
    {
      kind := None;
      if datagram.Some? && |datagram.value| >= HEADER_SIZE {
        var header := DecodeHeader(datagram.value).value;
        if header.playerId == playerId {
          return;
        }
        packetsReceived := packetsReceived + 1;
        kind := Some(LabelOf(datagram.value[1]));
      }
    }

    /**
     * handle_lobby_input: space, newline or CR toggles is_ready and sends
     * READY with the new value; 'r' enters the race without sending; 'q'
     * stops; anything else is ignored.
     */
    method HandleLobbyInput(key: char, sendOk: bool) returns (raised: bool)
      requires Valid()
      modifies this
      ensures Valid()
      ensures key in {' ', '\n', '\r'} ==> (
        var header := PackHeader(MSG_READY, old(playerId), old(sequence));
        isReady == !old(isReady) && inRace == old(inRace) && running == old(running) &&
        sequence == old(sequence) + (if header.Some? then 1 else 0) &&
        (raised <==> !(header.Some? && sendOk)) &&
        (!raised ==> header.Some? && sent == old(sent) + [header.value + ReadyPayload(!old(isReady))]) &&
        (raised ==> sent == old(sent)))
      ensures key in {' ', '\n', '\r'} ==> (
        var header := PackHeader(MSG_READY, old(playerId), old(sequence));
        State() == old(State()).(
          isReady := !old(isReady),
          sequence := old(sequence) + (if header.Some? then 1 else 0),
          packetsSent := old(packetsSent) + (if !raised then 1 else 0),
          sent := old(sent) + (if !raised then [header.value + ReadyPayload(!old(isReady))] else [])))
      ensures !(key in {' ', '\n', '\r'}) ==> (!raised &&
        State() == old(State()).(inRace := old(inRace) || Lower(key) == 'r',
                                 running := old(running) && (Lower(key) == 'r' || Lower(key) != 'q')))
    {
      raised := false;
      if key in {' ', '\n', '\r'} {
        isReady := !isReady;
        raised := SendReady(sendOk);
      } else if Lower(key) == 'r' {
        inRace := true;
      } else if Lower(key) == 'q' {
        running := false;
      }
    }

    /**
     * handle_race_input: 'b' and 'g' send ITEM_PLACED for a banana or a
     * green shell; 'l' leaves the race, clears is_ready and sends LOBBY_JOIN
     * (which therefore carries not-ready); 'q' stops.
     */
    method HandleRaceInput(key: char, sendOk: bool) returns (raised: bool)
      requires Valid()
      modifies this
      ensures Valid()
      ensures Lower(key) == 'l' ==> (
        var header := PackHeader(MSG_LOBBY_JOIN, old(playerId), old(sequence));
        !inRace && !isReady && running == old(running) &&
        sequence == old(sequence) + (if header.Some? then 1 else 0) &&
        (raised <==> !(header.Some? && sendOk)) &&
        (!raised ==> header.Some? && sent == old(sent) + [header.value + ReadyPayload(false)]) &&
        (raised ==> sent == old(sent)))
      ensures Lower(key) == 'l' ==> (
        var header := PackHeader(MSG_LOBBY_JOIN, old(playerId), old(sequence));
        State() == old(State()).(
          inRace := false, isReady := false,
          sequence := old(sequence) + (if header.Some? then 1 else 0),
          packetsSent := old(packetsSent) + (if !raised then 1 else 0),
          sent := old(sent) + (if !raised then [header.value + ReadyPayload(false)] else [])))
      ensures (Lower(key) == 'b' || Lower(key) == 'g') ==> (
        var itemType := if Lower(key) == 'b' then ITEM_BANANA else ITEM_GREEN_SHELL;
        var payload := ItemPlacedPayload(ItemPlacement(itemType, ToQ16_8(old(posX)), ToQ16_8(old(posY)), old(angle), ITEM_SPEED_Q16_8));
        var header := PackHeader(MSG_ITEM_PLACED, old(playerId), old(sequence));
        var built := payload.Some? && header.Some?;
        raised == !(built && sendOk) &&
        State() == old(State()).(
          sequence := old(sequence) + (if built then 1 else 0),
          packetsSent := old(packetsSent) + (if !raised then 1 else 0),
          sent := old(sent) + (if !raised then [header.value + payload.value] else [])))
      ensures (Lower(key) == 'b' || Lower(key) == 'g') && !raised ==>
        |sent| == |old(sent)| + 1 &&
        DecodeItemPlacedPayload(sent[|sent| - 1][HEADER_SIZE..]).itemType ==
          (if Lower(key) == 'b' then ITEM_BANANA else ITEM_GREEN_SHELL)
      ensures Lower(key) !in {'b', 'g', 'l'} ==> (!raised &&
        State() == old(State()).(running := old(running) && Lower(key) != 'q'))
    {
      raised := false;
      if Lower(key) == 'b' || Lower(key) == 'g' {
        raised := PlaceItem(if Lower(key) == 'b' then ITEM_BANANA else ITEM_GREEN_SHELL, sendOk);
      } else if Lower(key) == 'l' {
        raised := LeaveRace(sendOk);
      } else if Lower(key) == 'q' {
        running := false;
      }
    }

    /** The 'b'/'g' keys of the race loop: one ITEM_PLACED message at the current pose. */
    method PlaceItem(itemType: int, sendOk: bool) returns (raised: bool)
      requires Valid()
      modifies this
      ensures Valid()
      ensures var payload := ItemPlacedPayload(ItemPlacement(itemType, ToQ16_8(old(posX)), ToQ16_8(old(posY)), old(angle), ITEM_SPEED_Q16_8));
        var header := PackHeader(MSG_ITEM_PLACED, old(playerId), old(sequence));
        var built := payload.Some? && header.Some?;
        raised == !(built && sendOk) &&
        State() == old(State()).(
          sequence := old(sequence) + (if built then 1 else 0),
          packetsSent := old(packetsSent) + (if !raised then 1 else 0),
          sent := old(sent) + (if !raised then [header.value + payload.value] else []))
      ensures !raised ==>
        |sent| == |old(sent)| + 1 && DecodeItemPlacedPayload(sent[|sent| - 1][HEADER_SIZE..]).itemType == itemType
    {
      ghost var payload := ItemPlacedPayload(ItemPlacement(itemType, ToQ16_8(posX), ToQ16_8(posY), angle, ITEM_SPEED_Q16_8));
      ghost var header := PackHeader(MSG_ITEM_PLACED, playerId, sequence);
      raised := SendItemPlaced(itemType, sendOk);
      if !raised {
        assert (header.value + payload.value)[HEADER_SIZE..] == payload.value;
      }
    }

    /** The 'l' key of the race loop: back to the lobby, not ready, with a LOBBY_JOIN message. */
    method LeaveRace(sendOk: bool) returns (raised: bool)
      requires Valid()
      modifies this
      ensures Valid()
      ensures var header := PackHeader(MSG_LOBBY_JOIN, old(playerId), old(sequence));
        (raised <==> !(header.Some? && sendOk)) &&
        State() == old(State()).(
          inRace := false, isReady := false,
          sequence := old(sequence) + (if header.Some? then 1 else 0),
          packetsSent := old(packetsSent) + (if !raised then 1 else 0),
          sent := old(sent) + (if !raised then [header.value + ReadyPayload(false)] else []))
    {
      inRace := false;
      isReady := false;
      raised := SendLobbyJoin(sendOk);
    }

    /**
     * The lobby loop's heartbeat: sent once at least a second has passed since
     * the last one. The loop reads the clock for the check (`checkedAt`) and
     * send_lobby_update reads it again after the send (`sentAt`).
     */
    method HeartbeatIfDue(checkedAt: real, sentAt: real, sendOk: bool) returns (raised: bool)
      requires Valid()
      modifies this
      ensures Valid()
      ensures checkedAt - old(lastHeartbeat) < HEARTBEAT_INTERVAL ==> !raised && State() == old(State())
      ensures checkedAt - old(lastHeartbeat) >= HEARTBEAT_INTERVAL ==> (
        var header := PackHeader(MSG_LOBBY_UPDATE, old(playerId), old(sequence));
        var delivered := !raised && sendOk;
        raised == !header.Some? &&
        State() == old(State()).(
          sequence := old(sequence) + (if !raised then 1 else 0),
          packetsSent := old(packetsSent) + (if delivered then 1 else 0),
          lastHeartbeat := if delivered then sentAt else old(lastHeartbeat),
          sent := old(sent) + (if delivered then [header.value + ReadyPayload(old(isReady))] else [])))
    {
      raised := false;
      if checkedAt - lastHeartbeat >= HEARTBEAT_INTERVAL {
        raised := SendLobbyUpdate(sendOk, sentAt);
      }
    }

    /**
     * update_car_physics with the cosine and sine displacement given: the
     * angle advances by 5 modulo 512, the speed becomes 5.0 and each
     * coordinate is clamped to [50, 950].
     */
    method UpdateCarPhysics(dx: real, dy: real)
      requires Valid()
      modifies this
      ensures Valid()
      ensures angle == (old(angle) + 5) % ANGLE_FULL
      ensures State() == old(State()).(angle := (old(angle) + 5) % ANGLE_FULL, speed := 5.0,
                                       posX := Clamp(old(posX) + dx), posY := Clamp(old(posY) + dy))
    {
      angle := (angle + 5) % ANGLE_FULL;
      speed := 5.0;
      posX := Clamp(posX + dx);
      posY := Clamp(posY + dy);
    }

    /**
     * One pass of the race loop's cadence check: when at least 1/15 s has
     * passed since the last car update, move and send; returns the new time
     * of the last update (unchanged when the send raised). The loop reads the
     * clock for the check (`checkedAt`) and again after the send (`sentAt`).
     */
    method CarUpdateIfDue(checkedAt: real, sentAt: real, lastCarUpdate: real, dx: real, dy: real, sendOk: bool)
      returns (last: real, raised: bool)
      requires Valid()
      modifies this
      ensures Valid()
      ensures checkedAt - lastCarUpdate < CAR_UPDATE_INTERVAL ==> !raised && last == lastCarUpdate && State() == old(State())
      ensures checkedAt - lastCarUpdate >= CAR_UPDATE_INTERVAL ==> (
        var moved := old(State()).(angle := (old(angle) + 5) % ANGLE_FULL, speed := 5.0,
                                   posX := Clamp(old(posX) + dx), posY := Clamp(old(posY) + dy));
        var payload := CarPayload(CarStateOf(moved.posX, moved.posY, moved.speed, moved.angle, moved.lap, moved.item));
        var header := PackHeader(MSG_CAR_UPDATE, old(playerId), old(sequence));
        var built := payload.Some? && header.Some?;
        raised == !(built && sendOk) &&
        last == (if raised then lastCarUpdate else sentAt) &&
        State() == moved.(
          sequence := old(sequence) + (if built then 1 else 0),
          packetsSent := old(packetsSent) + (if !raised then 1 else 0),
          sent := old(sent) + (if !raised then [header.value + payload.value] else [])))
    {
      last := lastCarUpdate;
      raised := false;
      if checkedAt - lastCarUpdate >= CAR_UPDATE_INTERVAL {
        UpdateCarPhysics(dx, dy);
        raised := SendCarUpdate(sendOk);
        if !raised {
          last := sentAt;
        }
      }
    }
  }
}
