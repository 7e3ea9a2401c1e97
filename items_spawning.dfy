/**
 * Spawning track items (gameplay/items/items_spawning.c): projectiles and
 * hazards take the lowest free slot of the pool; with a full pool nothing is
 * spawned. In multiplayer a locally fired or dropped item is first broadcast
 * to the other players, whether or not a slot is free.
 */
module ItemSpawning {
  import opened FixedMath
  import opened GameTypes
  import opened ItemState
  import opened ItemNavigation

  /** The arguments of Multiplayer_SendItemPlacement. */
  datatype Placement = Placement(kind: int, position: Vec2, angle512: int, speed: int, playerIndex: int)

  /** The placement broadcast: only when asked to and only in multiplayer. */
  function Broadcast(sendNetwork: bool, race: RaceView, p: Placement): (sent: Option<Placement>)
    ensures sent.Some? <==> sendNetwork && race.gameMode == MultiPlayer
    ensures sent.Some? ==> sent.value == p
  {
    if sendNetwork && race.gameMode == MultiPlayer then Some(p) else None
  }

  /** findInactiveItemSlot: the lowest inactive index, or -1 when every slot is active. */
  function FreeSlot(items: seq<TrackItem>): (r: int)
    ensures -1 <= r < |items|
    ensures r == -1 <==> forall i | 0 <= i < |items| :: items[i].active
    ensures r >= 0 ==> !items[r].active && forall i | 0 <= i < r :: items[i].active
    decreases |items|
  {
    if items == [] then -1
    else if !items[0].active then 0
    else
      var s := FreeSlot(items[1..]);
      if s < 0 then -1 else s + 1
  }

  /** The pool is full exactly when all its slots are counted active. */
  lemma FullPoolHasNoFreeSlot(items: seq<TrackItem>)
    ensures FreeSlot(items) == -1 <==> ActiveCount(items) == |items|
  {
    ActiveCountExtremes(items);
  }

  predicate IsHoming(kind: int) { kind == ITEM_RED_SHELL || kind == ITEM_MISSILE }

  /** The shooter index as stored: -1 unless it names one of the race's cars. */
  function ResolvedShooter(shooterCarIndex: int, carCount: int): (r: int)
    ensures r == -1 || 0 <= r < carCount
    ensures 0 <= shooterCarIndex < carCount ==> r == shooterCarIndex
  {
    if shooterCarIndex < 0 || shooterCarIndex >= carCount then -1 else shooterCarIndex
  }

  /**
   * The slot fireProjectileInternal writes. Red shells and missiles start
   * with lap-based immunity (-1) and follow the waypoints from the nearest
   * one; green shells have no shooter, no immunity and no path. The start
   * position is not written.
   */
  function ProjectileItem(prev: TrackItem, kind: int, pos: Vec2, angle512: int, speed: int,
                          targetCarIndex: int, shooterCarIndex: int, race: RaceView): (it: TrackItem)
    ensures it.active && it.kind == kind && it.position == pos && it.speed == speed
    ensures it.angle512 == angle512 && it.targetCarIndex == targetCarIndex
    ensures it.lifetimeTicks == PROJECTILE_LIFETIME_SECONDS * RACE_TICK_FREQ
    ensures it.startPosition == prev.startPosition
    ensures it.shooterCarIndex == -1 || 0 <= it.shooterCarIndex < race.carCount
    ensures IsHoming(kind) ==>
      it.shooterCarIndex == ResolvedShooter(shooterCarIndex, race.carCount) && it.immunityTimer == -1 &&
      it.usePathFollowing && it.currentWaypoint == it.startingWaypoint == NearestWaypoint(pos, race.currentMap)
    ensures !IsHoming(kind) ==>
      it.shooterCarIndex == -1 && it.immunityTimer == 0 && !it.usePathFollowing &&
      it.currentWaypoint == 0 && it.startingWaypoint == -1
    ensures it.waypointsVisited == 0 && !it.hasCompletedLap
    ensures kind == ITEM_MISSILE ==> it.hitboxWidth == MISSILE_HITBOX_W && it.hitboxHeight == MISSILE_HITBOX_H
    ensures kind != ITEM_MISSILE ==> it.hitboxWidth == SHELL_HITBOX && it.hitboxHeight == SHELL_HITBOX
  {
    var waypoint := NearestWaypoint(pos, race.currentMap);
    var homing := IsHoming(kind);
    prev.(kind := kind, position := pos, speed := speed, angle512 := angle512, targetCarIndex := targetCarIndex,
          active := true, lifetimeTicks := PROJECTILE_LIFETIME_SECONDS * RACE_TICK_FREQ,
          shooterCarIndex := if homing then ResolvedShooter(shooterCarIndex, race.carCount) else -1,
          immunityTimer := if homing then -1 else 0,
          usePathFollowing := homing,
          currentWaypoint := if homing then waypoint else 0,
          waypointsVisited := 0,
          startingWaypoint := if homing then waypoint else -1,
          hasCompletedLap := false,
          hitboxWidth := if kind == ITEM_MISSILE then MISSILE_HITBOX_W else SHELL_HITBOX,
          hitboxHeight := if kind == ITEM_MISSILE then MISSILE_HITBOX_H else SHELL_HITBOX)
  }

  /**
   * The slot placeHazardInternal writes: at rest where it was dropped, with a
   * lifetime and hitbox for bombs, bananas and oil. Any other kind is
   * activated with the slot's previous lifetime and hitbox.
   */
  function HazardItem(prev: TrackItem, kind: int, pos: Vec2, bananaLifetimeSeconds: int): (it: TrackItem)
    ensures it.active && it.kind == kind && it.position == pos && it.startPosition == pos
    ensures it.speed == 0 && it.angle512 == 0
    ensures kind == ITEM_BOMB ==> it.lifetimeTicks == BOMB_LIFETIME_SECONDS * RACE_TICK_FREQ && it.hitboxWidth == BOMB_HITBOX
    ensures kind == ITEM_BANANA ==> it.lifetimeTicks == bananaLifetimeSeconds * RACE_TICK_FREQ && it.hitboxWidth == BANANA_HITBOX
    ensures kind == ITEM_OIL ==> it.lifetimeTicks == OIL_LIFETIME_TICKS && it.hitboxWidth == OIL_SLICK_HITBOX
    ensures kind != ITEM_BOMB && kind != ITEM_BANANA && kind != ITEM_OIL ==>
      it.lifetimeTicks == prev.lifetimeTicks && it.hitboxWidth == prev.hitboxWidth && it.hitboxHeight == prev.hitboxHeight
    ensures it.(kind := prev.kind, position := prev.position, startPosition := prev.startPosition, speed := prev.speed,
                angle512 := prev.angle512, active := prev.active, lifetimeTicks := prev.lifetimeTicks,
                hitboxWidth := prev.hitboxWidth, hitboxHeight := prev.hitboxHeight) == prev
  {
    var placed := prev.(kind := kind, position := pos, startPosition := pos, speed := 0, angle512 := 0, active := true);
    if kind == ITEM_BOMB then
      placed.(lifetimeTicks := BOMB_LIFETIME_SECONDS * RACE_TICK_FREQ, hitboxWidth := BOMB_HITBOX, hitboxHeight := BOMB_HITBOX)
    else if kind == ITEM_BANANA then
      placed.(lifetimeTicks := bananaLifetimeSeconds * RACE_TICK_FREQ, hitboxWidth := BANANA_HITBOX, hitboxHeight := BANANA_HITBOX)
    else if kind == ITEM_OIL then
      placed.(lifetimeTicks := OIL_LIFETIME_TICKS, hitboxWidth := OIL_SLICK_HITBOX, hitboxHeight := OIL_SLICK_HITBOX)
    else placed
  }

  /**
   * The pool after writing it into the lowest free slot: unchanged when
   * full, otherwise one more active slot and every other slot as it was.
   */
  function Spawn(items: seq<TrackItem>, it: TrackItem): (r: seq<TrackItem>)
    requires it.active
    ensures |r| == |items|
    ensures FreeSlot(items) == -1 ==> r == items
    ensures FreeSlot(items) >= 0 ==>
      r[FreeSlot(items)] == it && ActiveCount(r) == ActiveCount(items) + 1 &&
      forall i | 0 <= i < |items| && i != FreeSlot(items) :: r[i] == items[i]
  {
    var s := FreeSlot(items);
    if s < 0 then items
    else
      FillingAFreeSlotCountsOne(items, s, it);
      items[s := it]
  }

  /** The previous content of the slot a spawn would take (the empty item when the pool is full). */
  function SlotToFill(items: seq<TrackItem>): TrackItem
  {
    var s := FreeSlot(items);
    if s < 0 then EMPTY_ITEM else items[s]
  }

  /** findInactiveItemSlot. */
  method FindInactiveItemSlot(pool: ItemPool) returns (slot: int)
    requires pool.Valid()
    ensures slot == FreeSlot(pool.activeItems[..])
  {
    var i := 0;
    while i < MAX_TRACK_ITEMS
      invariant 0 <= i <= MAX_TRACK_ITEMS
      invariant forall k | 0 <= k < i :: pool.activeItems[k].active
    {
      if !pool.activeItems[i].active {
        return i;
      }
      i := i + 1;
    }
    return -1;
  }

  /** fireProjectileInternal. */
  method FireProjectileInternal(pool: ItemPool, kind: int, pos: Vec2, angle512: int, speed: int,
                                targetCarIndex: int, sendNetwork: bool, shooterCarIndex: int, race: RaceView)
    returns (sent: Option<Placement>)
    requires pool.Valid()
    modifies pool.activeItems
    ensures sent == Broadcast(sendNetwork, race, Placement(kind, pos, angle512, speed, race.playerIndex))
    ensures pool.activeItems[..] == Spawn(old(pool.activeItems[..]),
      ProjectileItem(SlotToFill(old(pool.activeItems[..])), kind, pos, angle512, speed, targetCarIndex, shooterCarIndex, race))
  {
    sent := Broadcast(sendNetwork, race, Placement(kind, pos, angle512, speed, race.playerIndex));
    var slot := FindInactiveItemSlot(pool);
    if slot < 0 {
      return;
    }
    var item := pool.activeItems[slot];
    item := item.(kind := kind, position := pos, speed := speed, angle512 := angle512,
                  targetCarIndex := targetCarIndex, active := true,
                  lifetimeTicks := PROJECTILE_LIFETIME_SECONDS * RACE_TICK_FREQ);
    var resolvedShooter := shooterCarIndex;
    if resolvedShooter < 0 || resolvedShooter >= race.carCount {
      resolvedShooter := -1;
    }
    if kind == ITEM_RED_SHELL || kind == ITEM_MISSILE {
      var waypoint := FindNearestWaypoint(pos, race.currentMap);
      item := item.(shooterCarIndex := resolvedShooter, immunityTimer := -1, usePathFollowing := true,
                    currentWaypoint := waypoint, waypointsVisited := 0, startingWaypoint := waypoint,
                    hasCompletedLap := false);
    } else {
      item := item.(shooterCarIndex := -1, immunityTimer := 0, usePathFollowing := false,
                    currentWaypoint := 0, waypointsVisited := 0, startingWaypoint := -1,
                    hasCompletedLap := false);
    }
    if kind == ITEM_MISSILE {
      item := item.(hitboxWidth := MISSILE_HITBOX_W, hitboxHeight := MISSILE_HITBOX_H);
    } else {
      item := item.(hitboxWidth := SHELL_HITBOX, hitboxHeight := SHELL_HITBOX);
    }
    pool.activeItems[slot] := item;
  }

  /** Items_FireProjectile: a local shot, broadcast and fired by the local player. */
  method FireProjectile(pool: ItemPool, kind: int, pos: Vec2, angle512: int, speed: int,
                        targetCarIndex: int, race: RaceView)
    returns (sent: Option<Placement>)
    requires pool.Valid()
    modifies pool.activeItems
    ensures sent == Broadcast(true, race, Placement(kind, pos, angle512, speed, race.playerIndex))
    ensures pool.activeItems[..] == Spawn(old(pool.activeItems[..]),
      ProjectileItem(SlotToFill(old(pool.activeItems[..])), kind, pos, angle512, speed, targetCarIndex, race.playerIndex, race))
  {
    sent := FireProjectileInternal(pool, kind, pos, angle512, speed, targetCarIndex, true, race.playerIndex, race);
  }

  /** placeHazardInternal. */
  method PlaceHazardInternal(pool: ItemPool, kind: int, pos: Vec2, sendNetwork: bool, race: RaceView,
                             bananaLifetimeSeconds: int)
    returns (sent: Option<Placement>)
    requires pool.Valid()
    modifies pool.activeItems
    ensures sent == Broadcast(sendNetwork, race, Placement(kind, pos, 0, 0, race.playerIndex))
    ensures pool.activeItems[..] == Spawn(old(pool.activeItems[..]),
      HazardItem(SlotToFill(old(pool.activeItems[..])), kind, pos, bananaLifetimeSeconds))
  {
    sent := Broadcast(sendNetwork, race, Placement(kind, pos, 0, 0, race.playerIndex));
    var slot := FindInactiveItemSlot(pool);
    if slot < 0 {
      return;
    }
    var item := pool.activeItems[slot];
    item := item.(kind := kind, position := pos, startPosition := pos, speed := 0, angle512 := 0, active := true);
    if kind == ITEM_BOMB {
      item := item.(lifetimeTicks := BOMB_LIFETIME_SECONDS * RACE_TICK_FREQ, hitboxWidth := BOMB_HITBOX, hitboxHeight := BOMB_HITBOX);
    } else if kind == ITEM_BANANA {
      item := item.(lifetimeTicks := bananaLifetimeSeconds * RACE_TICK_FREQ, hitboxWidth := BANANA_HITBOX, hitboxHeight := BANANA_HITBOX);
    } else if kind == ITEM_OIL {
      item := item.(lifetimeTicks := OIL_LIFETIME_TICKS, hitboxWidth := OIL_SLICK_HITBOX, hitboxHeight := OIL_SLICK_HITBOX);
    }
    pool.activeItems[slot] := item;
  }

  /** Items_PlaceHazard: a local drop, broadcast in multiplayer. */
  method PlaceHazard(pool: ItemPool, kind: int, pos: Vec2, race: RaceView, bananaLifetimeSeconds: int)
    returns (sent: Option<Placement>)
    requires pool.Valid()
    modifies pool.activeItems
    ensures sent == Broadcast(true, race, Placement(kind, pos, 0, 0, race.playerIndex))
    ensures pool.activeItems[..] == Spawn(old(pool.activeItems[..]),
      HazardItem(SlotToFill(old(pool.activeItems[..])), kind, pos, bananaLifetimeSeconds))
  {
    sent := PlaceHazardInternal(pool, kind, pos, true, race, bananaLifetimeSeconds);
  }
}
