/**
 * Item collisions (the second half of gameplay/items/items_update.c):
 * cars picking up item boxes, projectiles hitting cars, and cars running
 * into bananas, oil slicks and bombs. Only items near the screen are
 * tested. In multiplayer only connected cars take part; the connection
 * status is a parameter (`connected[i]`, false past its end), and so are
 * the rand() results the hit effects and the box draw use.
 */
module ItemCollision {
  import opened FixedMath
  import opened GameTypes
  import opened CarPhysics
  import opened ItemEffects
  import opened ItemState
  import opened ItemInventory
  import opened ItemUpdate

  /** A banana divides the speed by 3. */
  const BANANA_SPEED_DIVISOR: int := 3
  /** Items this many pixels off screen are still tested. */
  const COLLISION_BUFFER_ZONE: int := 64
  /** A bomb reaches 50 pixels. */
  const BOMB_EXPLOSION_RADIUS: int := IntToFixed(50)
  /** A bomb pushes cars 40 pixels away. */
  const BOMB_KNOCKBACK_DISTANCE: int := 40
  /** A shell spins the car an eighth of a turn, one way or the other. */
  const SHELL_SPIN_ANGLE_POS: int := 64
  const SHELL_SPIN_ANGLE_NEG: int := -64

  predicate IsHazard(kind: int)
  {
    kind == ITEM_BANANA || kind == ITEM_OIL || kind == ITEM_BOMB
  }

  // ---------------------------------------------------------------------
  // Hit tests
  // ---------------------------------------------------------------------

  /** checkItemCarCollision's reach in pixels: (item hitbox + car size) / 2, C division. */
  function HitRadius(itemHitbox: int): int
  {
    TruncDiv(itemHitbox + CAR_COLLISION_SIZE, 2)
  }

  /** checkItemCarCollision. */
  predicate ItemHitsCar(itemPos: Vec2, carPos: Vec2, itemHitbox: int)
  {
    Distance(itemPos, carPos) <= IntToFixed(HitRadius(itemHitbox))
  }

  /**
   * Shells, bananas, bombs and missiles reach 24 pixels and oil 32; the
   * test does not depend on which of the two is the item, an item always
   * hits a car on its spot, and a wider hitbox reaches at least as far.
   */
  lemma ItemHitRange(itemPos: Vec2, carPos: Vec2, h: int, wider: int)
    requires -CAR_COLLISION_SIZE <= h <= wider
    ensures HitRadius(SHELL_HITBOX) == 24 && HitRadius(BANANA_HITBOX) == 24 && HitRadius(BOMB_HITBOX) == 24
    ensures HitRadius(MISSILE_HITBOX_W) == 24 && HitRadius(OIL_SLICK_HITBOX) == 32
    ensures ItemHitsCar(itemPos, carPos, h) <==> ItemHitsCar(carPos, itemPos, h)
    ensures ItemHitsCar(itemPos, itemPos, h)
    ensures ItemHitsCar(itemPos, carPos, h) ==> ItemHitsCar(itemPos, carPos, wider)
  {
    DistanceProperties(itemPos, carPos);
    DistanceProperties(itemPos, itemPos);
    assert HitRadius(h) <= HitRadius(wider);
  }

  /** checkItemBoxPickup: within the car radius plus the box hitbox. */
  predicate PicksUpBox(carPos: Vec2, boxPos: Vec2)
  {
    Distance(carPos, boxPos) <= IntToFixed(CAR_RADIUS + ITEM_BOX_HITBOX)
  }

  /** A box is picked up exactly where a shell would hit the car. */
  lemma BoxReachIsShellReach(carPos: Vec2, boxPos: Vec2)
    ensures PicksUpBox(carPos, boxPos) <==> ItemHitsCar(boxPos, carPos, SHELL_HITBOX)
  {
    DistanceProperties(carPos, boxPos);
  }

  /** isItemNearScreen: the item's pixel lies in the screen grown by the buffer on every side. */
  predicate NearScreen(itemPos: Vec2, scrollX: int, scrollY: int)
  {
    var x := FixedToInt(itemPos.x);
    var y := FixedToInt(itemPos.y);
    scrollX - COLLISION_BUFFER_ZONE <= x <= scrollX + SCREEN_WIDTH + COLLISION_BUFFER_ZONE &&
    scrollY - COLLISION_BUFFER_ZONE <= y <= scrollY + SCREEN_HEIGHT + COLLISION_BUFFER_ZONE
  }

  /**
   * Every item drawn on screen is tested; the test depends only on where
   * the item is relative to the camera; an item more than the buffer past
   * an edge is not tested.
   */
  lemma NearScreenIsRelative(itemPos: Vec2, scrollX: int, scrollY: int, dx: int, dy: int)
    ensures (scrollX <= FixedToInt(itemPos.x) < scrollX + SCREEN_WIDTH &&
             scrollY <= FixedToInt(itemPos.y) < scrollY + SCREEN_HEIGHT) ==> NearScreen(itemPos, scrollX, scrollY)
    ensures NearScreen(Add(itemPos, Vec2(IntToFixed(dx), IntToFixed(dy))), scrollX + dx, scrollY + dy) ==
            NearScreen(itemPos, scrollX, scrollY)
    ensures FixedToInt(itemPos.x) < scrollX - COLLISION_BUFFER_ZONE ==> !NearScreen(itemPos, scrollX, scrollY)
  {
    assert FixedToInt(itemPos.x + IntToFixed(dx)) == FixedToInt(itemPos.x) + dx;
    assert FixedToInt(itemPos.y + IntToFixed(dy)) == FixedToInt(itemPos.y) + dy;
  }

  // ---------------------------------------------------------------------
  // Hit effects
  // ---------------------------------------------------------------------

  /** The spin a shell gives, chosen by the parity of a rand() result. */
  function ShellSpin(roll: nat): int
  {
    if roll % 2 == 0 then SHELL_SPIN_ANGLE_POS else SHELL_SPIN_ANGLE_NEG
  }

  /** applyShellHitEffect. */
  function ShellHit(c: CarValue, roll: nat): CarValue
  {
    c.(speed := 0, angle512 := Wrap(c.angle512 + ShellSpin(roll)))
  }

  /** A shell stops the car and turns it exactly an eighth of a turn, left or right; nothing else changes. */
  lemma ShellHitSpinsAnEighth(c: CarValue, roll: nat)
    ensures var r := ShellHit(c, roll);
      r.speed == 0 && 0 <= r.angle512 < ANGLE_FULL &&
      ShortestTurn(c.angle512, r.angle512) == (if roll % 2 == 0 then ANGLE_FULL / 8 else -ANGLE_FULL / 8) &&
      r == c.(speed := 0, angle512 := r.angle512)
  {
    var r := ShellHit(c, roll);
    ShortestTurnIsUnique(c.angle512, r.angle512, ShellSpin(roll));
  }

  /** applyBananaHitEffect: a third of the speed (C division), heading reversed. */
  function BananaHit(c: CarValue): CarValue
  {
    c.(speed := TruncDiv(c.speed, BANANA_SPEED_DIVISOR), angle512 := Behind(c.angle512))
  }

  /**
   * A banana points the car the opposite way and keeps a third of its
   * speed, rounded toward zero with the sign kept; a second banana
   * restores the heading; nothing else changes.
   */
  lemma BananaHitTurnsAround(c: CarValue)
    ensures var r := BananaHit(c);
      FromAngle(r.angle512) == Neg(FromAngle(c.angle512)) &&
      Abs(r.speed) == Abs(c.speed) / BANANA_SPEED_DIVISOR && (r.speed == 0 || (r.speed < 0 <==> c.speed < 0)) &&
      BananaHit(r).angle512 == Wrap(c.angle512) &&
      r == c.(speed := r.speed, angle512 := r.angle512)
  {
    BehindIsOpposite(c.angle512);
    BehindTwice(c.angle512);
  }

  /** Two half turns make a whole one. */
  lemma {:induction false} BehindTwice(angle512: int)
    ensures Behind(Behind(angle512)) == Wrap(angle512)
  {
    var b := Behind(angle512);
    var q := (angle512 + ANGLE_HALF) / ANGLE_FULL;
    assert b + ANGLE_HALF == angle512 + ANGLE_FULL * (1 - q);
    WrapShift(angle512, 1 - q);
  }

  /** checkProjectileCollision's effect on the car hit. */
  function ProjectileHit(kind: int, c: CarValue, roll: nat): CarValue
  {
    if kind == ITEM_GREEN_SHELL || kind == ITEM_RED_SHELL then ShellHit(c, roll)
    else if kind == ITEM_MISSILE then c.(speed := 0)
    else c
  }

  /** applyOilHitEffect's effect on the car: half the speed, C division, for every car. */
  function OilHit(c: CarValue): CarValue
  {
    c.(speed := TruncDiv(c.speed, OIL_SPEED_DIVISOR))
  }

  /** explodeBomb's reach. */
  predicate InBlast(center: Vec2, carPos: Vec2)
  {
    Distance(center, carPos) <= BOMB_EXPLOSION_RADIUS
  }

  /** explodeBomb on one car: stopped and, unless on the centre, pushed 40 pixels away. */
  function Exploded(c: CarValue, center: Vec2): CarValue
  {
    if !InBlast(center, c.position) then c
    else
      var away := Sub(c.position, center);
      if IsZero(away) then c.(speed := 0)
      else c.(speed := 0, position := Add(c.position, Scale(Normalize(away), IntToFixed(BOMB_KNOCKBACK_DISTANCE))))
  }

  /** The sign of a number: -1, 0 or 1. */
  function Sign(v: int): int
  {
    if v > 0 then 1 else if v < 0 then -1 else 0
  }

  /** One axis of the knockback: never toward the centre, and none along an axis the car shares with it. */
  lemma {:induction false} KnockbackAxis(a: int, len: int)
    requires len > 0
    ensures var d := FixedMul(FixedDiv(a, len), IntToFixed(BOMB_KNOCKBACK_DISTANCE));
      d == 0 || Sign(d) == Sign(a)
  {
    var q := FixedDiv(a, len);
    assert q == 0 || (q < 0 <==> a < 0);
    assert FixedMul(q, IntToFixed(BOMB_KNOCKBACK_DISTANCE)) == q * BOMB_KNOCKBACK_DISTANCE;
  }

  /**
   * A car outside the blast is untouched; one inside is stopped, and on
   * each axis it moves away from the bomb or not at all; its heading and
   * everything else are kept.
   */
  lemma ExplosionPushesAway(c: CarValue, center: Vec2)
    ensures var r := Exploded(c, center);
      var away := Sub(c.position, center);
      var moved := Sub(r.position, c.position);
      (!InBlast(center, c.position) ==> r == c) &&
      (InBlast(center, c.position) ==>
        r.speed == 0 && r == c.(speed := 0, position := r.position) &&
        (moved.x == 0 || Sign(moved.x) == Sign(away.x)) &&
        (moved.y == 0 || Sign(moved.y) == Sign(away.y)))
  {
    var away := Sub(c.position, center);
    if InBlast(center, c.position) && !IsZero(away) && Len(away) != 0 {
      KnockbackAxis(away.x, Len(away));
      KnockbackAxis(away.y, Len(away));
    }
  }

  // ---------------------------------------------------------------------
  // Who can be hit
  // ---------------------------------------------------------------------

  /** Multiplayer_IsPlayerConnected as seen by the item code: everyone in single player. */
  predicate Present(i: int, isMultiplayer: bool, connected: seq<bool>)
  {
    !isMultiplayer || (0 <= i < |connected| && connected[i])
  }

  /** An item still protecting its shooter: a multiplayer timer, or a single-player lap not yet done. */
  predicate HasImmunity(it: TrackItem)
  {
    it.immunityTimer > 0 || (it.immunityTimer == -1 && !it.hasCompletedLap)
  }

  /**
   * Car i is open to this item: present and, for a projectile, not the
   * shooter in multiplayer and not the shooter while immune in single
   * player.
   */
  predicate Exposed(it: TrackItem, i: int, isMultiplayer: bool, connected: seq<bool>, projectile: bool)
  {
    Present(i, isMultiplayer, connected) &&
    (projectile ==>
      !(isMultiplayer && i == it.shooterCarIndex) &&
      !(!isMultiplayer && HasImmunity(it) && i == it.shooterCarIndex))
  }

  /** Car i is open to the item and within its reach. */
  predicate Hits(it: TrackItem, positions: seq<Vec2>, isMultiplayer: bool, connected: seq<bool>, projectile: bool, i: int)
    requires 0 <= i < |positions|
  {
    Exposed(it, i, isMultiplayer, connected, projectile) && ItemHitsCar(it.position, positions[i], it.hitboxWidth)
  }

  /** The first car from `from` on that the item hits, or -1. */
  function FirstHit(it: TrackItem, positions: seq<Vec2>, carCount: int, isMultiplayer: bool, connected: seq<bool>,
                    projectile: bool, from: nat): (r: int)
    requires carCount <= |positions|
    ensures r == -1 || from <= r < carCount
    ensures r >= 0 ==>
              Hits(it, positions, isMultiplayer, connected, projectile, r) &&
              forall j | from <= j < r :: !Hits(it, positions, isMultiplayer, connected, projectile, j)
    ensures r == -1 ==> forall j | from <= j < carCount :: !Hits(it, positions, isMultiplayer, connected, projectile, j)
    decreases carCount - from
  {
    if from >= carCount then -1
    else if Hits(it, positions, isMultiplayer, connected, projectile, from) then from
    else FirstHit(it, positions, carCount, isMultiplayer, connected, projectile, from + 1)
  }

  // ---------------------------------------------------------------------
  // One item against the cars
  // ---------------------------------------------------------------------

  /** checkProjectileCollision on values: the first car hit takes the effect and the projectile ends. */
  function ProjectileCheck(it: TrackItem, cs: seq<CarValue>, carCount: int, isMultiplayer: bool, connected: seq<bool>,
                           roll: nat): (r: (TrackItem, seq<CarValue>))
    requires carCount <= |cs|
    ensures |r.1| == |cs|
  {
    var v := FirstHit(it, Positions(cs), carCount, isMultiplayer, connected, true, 0);
    if v < 0 then (it, cs) else (it.(active := false), cs[v := ProjectileHit(it.kind, cs[v], roll)])
  }

  /**
   * A projectile affects at most one car, one that is open to it and
   * within its reach, and only by ending; it ends exactly when some open
   * car is within reach. In multiplayer the shooter and the disconnected
   * cars are never hit. No car moves.
   */
  lemma ProjectileHitsAtMostOne(it: TrackItem, cs: seq<CarValue>, carCount: int, isMultiplayer: bool,
                                connected: seq<bool>, roll: nat)
    requires carCount <= |cs|
    ensures var r := ProjectileCheck(it, cs, carCount, isMultiplayer, connected, roll);
      (r.0 == it || r.0 == it.(active := false)) &&
      ((r.0 == it.(active := false) && it.active) <==>
        it.active && exists i | 0 <= i < carCount :: Hits(it, Positions(cs), isMultiplayer, connected, true, i)) &&
      Positions(r.1) == Positions(cs) &&
      (forall i, j | 0 <= i < j < |cs| :: r.1[i] == cs[i] || r.1[j] == cs[j]) &&
      (forall i | 0 <= i < |cs| && r.1[i] != cs[i] ::
         i < carCount && Hits(it, Positions(cs), isMultiplayer, connected, true, i) && !r.0.active) &&
      (forall i | 0 <= i < |cs| && isMultiplayer && (i == it.shooterCarIndex || !Present(i, true, connected)) ::
         r.1[i] == cs[i])
  {
    var v := FirstHit(it, Positions(cs), carCount, isMultiplayer, connected, true, 0);
    var r := ProjectileCheck(it, cs, carCount, isMultiplayer, connected, roll);
    if v >= 0 {
      assert Positions(r.1) == Positions(cs);
    }
  }

  /** The oil pass: every car the slick reaches is slowed. */
  function OilSweep(it: TrackItem, cs: seq<CarValue>, carCount: int, isMultiplayer: bool, connected: seq<bool>): (r: seq<CarValue>)
    requires carCount <= |cs|
    ensures |r| == |cs|
  {
    seq(|cs|, i requires 0 <= i < |cs| =>
      if i < carCount && Hits(it, Positions(cs), isMultiplayer, connected, false, i) then OilHit(cs[i]) else cs[i])
  }

  /** The oil pass on the player's effects: the oil slow starts where the player's car is, if it is reached. */
  function OilEffects(e: Effects, it: TrackItem, cs: seq<CarValue>, carCount: int, race: RaceView, connected: seq<bool>): Effects
    requires carCount <= |cs|
  {
    var p := race.playerIndex;
    if 0 <= p < carCount && Hits(it, Positions(cs), race.gameMode == MultiPlayer, connected, false, p)
    then e.(oilSlowActive := true, oilSlowStart := cs[p].position)
    else e
  }

  /** explodeBomb on every car: each present car is caught by the blast or untouched. */
  function Blast(cs: seq<CarValue>, center: Vec2, carCount: int, isMultiplayer: bool, connected: seq<bool>): (r: seq<CarValue>)
    ensures |r| == |cs|
  {
    seq(|cs|, i requires 0 <= i < |cs| =>
      if i < carCount && Present(i, isMultiplayer, connected) then Exploded(cs[i], center) else cs[i])
  }

  /** The part of checkHazardCollision that walks the cars. */
  function HazardContact(it: TrackItem, cs: seq<CarValue>, e: Effects, carCount: int, race: RaceView,
                         connected: seq<bool>): (r: (TrackItem, seq<CarValue>, Effects))
    requires carCount <= |cs|
    ensures |r.1| == |cs|
    ensures r.0 == it || r.0 == it.(active := false)
  {
    var isMultiplayer := race.gameMode == MultiPlayer;
    var v := FirstHit(it, Positions(cs), carCount, isMultiplayer, connected, false, 0);
    if it.kind == ITEM_OIL then (it, OilSweep(it, cs, carCount, isMultiplayer, connected), OilEffects(e, it, cs, carCount, race, connected))
    else if v < 0 then (it, cs, e)
    else if it.kind == ITEM_BANANA then (it.(active := false), cs[v := BananaHit(cs[v])], e)
    else if it.kind == ITEM_BOMB then (it.(active := false), Blast(cs, it.position, carCount, isMultiplayer, connected), e)
    else (it, cs, e)
  }

  /** checkHazardCollision on values: the contact pass, then the bomb's timer. */
  function HazardCheck(it: TrackItem, cs: seq<CarValue>, e: Effects, carCount: int, race: RaceView,
                       connected: seq<bool>): (r: (TrackItem, seq<CarValue>, Effects))
    requires carCount <= |cs|
    ensures |r.1| == |cs|
  {
    var c := HazardContact(it, cs, e, carCount, race, connected);
    if it.kind == ITEM_BOMB && it.lifetimeTicks <= 0 then
      (c.0.(active := false), Blast(c.1, it.position, carCount, race.gameMode == MultiPlayer, connected), c.2)
    else c
  }

  /**
   * A banana hits at most the first present car within reach, and is used
   * up exactly when there is one. An oil slick is never used up, slows
   * every present car within reach and changes nothing else about any car.
   * A bomb with time left explodes only on contact, and then is used up.
   */
  lemma HazardCheckCases(it: TrackItem, cs: seq<CarValue>, e: Effects, carCount: int, race: RaceView, connected: seq<bool>)
    requires carCount <= |cs|
    ensures var isMultiplayer := race.gameMode == MultiPlayer;
      var r := HazardCheck(it, cs, e, carCount, race, connected);
      var contact := exists i | 0 <= i < carCount :: Hits(it, Positions(cs), isMultiplayer, connected, false, i);
      (it.kind == ITEM_BANANA ==>
        r.2 == e && (r.0 == it.(active := false) <==> contact || it == it.(active := false)) &&
        (!contact ==> r == (it, cs, e)) &&
        forall i, j | 0 <= i < j < |cs| :: r.1[i] == cs[i] || r.1[j] == cs[j]) &&
      (it.kind == ITEM_OIL ==>
        r.0 == it &&
        forall i | 0 <= i < |cs| ::
          r.1[i] == cs[i].(speed := r.1[i].speed) &&
          (r.1[i] != cs[i] ==> i < carCount && Hits(it, Positions(cs), isMultiplayer, connected, false, i))) &&
      (it.kind == ITEM_BOMB && it.lifetimeTicks > 0 ==>
        r.2 == e &&
        (!contact ==> r == (it, cs, e)) &&
        (contact ==> r == (it.(active := false), Blast(cs, it.position, carCount, isMultiplayer, connected), e)))
  {
    var isMultiplayer := race.gameMode == MultiPlayer;
    var v := FirstHit(it, Positions(cs), carCount, isMultiplayer, connected, false, 0);
    if v < 0 {
      assert !exists i | 0 <= i < carCount :: Hits(it, Positions(cs), isMultiplayer, connected, false, i);
    }
  }

  /**
   * A bomb whose timer runs out is removed by the update pass before any
   * collision pass sees it: an active bomb with time left either stays
   * active with time left or ends, so the hazard check never meets an
   * active bomb whose timer has run out, and such a bomb never explodes
   * on its own.
   */
  lemma BombTimerEndsTheBomb(it: TrackItem, race: RaceView, positions: seq<Vec2>, stalePoint: Vec2)
    requires race.carCount <= |positions|
    requires it.active && it.kind == ITEM_BOMB && it.lifetimeTicks > 0
    ensures var r := ItemTick(it, race, positions, stalePoint);
      r.kind == ITEM_BOMB && (r.active ==> r.lifetimeTicks > 0) && (r.lifetimeTicks <= 0 ==> !r.active)
  {
    ItemTickCases(it, race, positions, stalePoint);
  }

  // ---------------------------------------------------------------------
  // The effects on the car objects
  // ---------------------------------------------------------------------

  /** The race's cars are distinct objects (the C code indexes an array of structs). */
  predicate Distinct(cars: seq<Car>)
  {
    forall i, j | 0 <= i < j < |cars| :: cars[i] != cars[j]
  }

  /** applyShellHitEffect; `roll` is the rand() result. */
  method ApplyShellHitEffect(car: Car, roll: nat)
    modifies car
    ensures car.State() == ShellHit(old(car.State()), roll)
  {
    car.speed := 0;
    var spinDirection := if roll % 2 == 0 then SHELL_SPIN_ANGLE_POS else SHELL_SPIN_ANGLE_NEG;
    car.angle512 := Wrap(car.angle512 + spinDirection);
  }

  /** applyBananaHitEffect. */
  method ApplyBananaHitEffect(car: Car)
    modifies car
    ensures car.State() == BananaHit(old(car.State()))
  {
    car.speed := TruncDiv(car.speed, BANANA_SPEED_DIVISOR);
    car.angle512 := Wrap(car.angle512 + ANGLE_HALF);
  }

  /** applyOilHitEffect: the local player's car goes through Items_ApplyOilSlow, any other car is only slowed. */
  method ApplyOilHitEffect(effects: PlayerItemEffects, car: Car, carIndex: int, playerIndex: int)
    modifies effects, car
    ensures car.State() == OilHit(old(car.State()))
    ensures effects.Value() ==
      if carIndex == playerIndex then old(effects.Value()).(oilSlowActive := true, oilSlowStart := old(car.position))
      else old(effects.Value())
  {
    if carIndex == playerIndex {
      effects.ApplyOilSlow(car);
    } else {
      car.speed := TruncDiv(car.speed, OIL_SPEED_DIVISOR);
    }
  }

  /** explodeBomb's body for one car. */
  method ExplodeCar(car: Car, position: Vec2)
    modifies car
    ensures car.State() == Exploded(old(car.State()), position)
  {
    var dist := Distance(position, car.position);
    if dist <= BOMB_EXPLOSION_RADIUS {
      car.speed := 0;
      var knockbackDir := Sub(car.position, position);
      if !IsZero(knockbackDir) {
        knockbackDir := Normalize(knockbackDir);
        var knockback := Scale(knockbackDir, IntToFixed(BOMB_KNOCKBACK_DISTANCE));
        car.position := Add(car.position, knockback);
      }
    }
  }

  /** explodeBomb. */
  method ExplodeBomb(position: Vec2, cars: seq<Car>, carCount: int, isMultiplayer: bool, connected: seq<bool>)
    requires Distinct(cars) && 0 <= carCount <= |cars|
    modifies cars
    ensures CarValues(cars) == Blast(old(CarValues(cars)), position, carCount, isMultiplayer, connected)
  {
    ghost var cs := CarValues(cars);
    ghost var blast := Blast(cs, position, carCount, isMultiplayer, connected);
    for i := 0 to carCount
      invariant forall k | 0 <= k < |cars| :: cars[k].State() == if k < i then blast[k] else cs[k]
    {
      if isMultiplayer && !Present(i, true, connected) {
        continue;
      }
      ExplodeCar(cars[i], position);
    }
    assert CarValues(cars) == blast;
  }

  /** checkProjectileCollision on the projectile in `slot`; `roll` is the rand() a shell hit uses. */
  method CheckProjectileCollision(pool: ItemPool, slot: int, cars: seq<Car>, carCount: int, isMultiplayer: bool,
                                  connected: seq<bool>, roll: nat)
    requires pool.Valid() && 0 <= slot < MAX_TRACK_ITEMS && Distinct(cars) && 0 <= carCount <= |cars|
    modifies pool.activeItems, cars
    ensures var r := ProjectileCheck(old(pool.activeItems[slot]), old(CarValues(cars)), carCount, isMultiplayer, connected, roll);
      pool.activeItems[..] == old(pool.activeItems[..])[slot := r.0] && CarValues(cars) == r.1
  {
    var item := pool.activeItems[slot];
    ghost var cs := CarValues(cars);
    ghost var positions := Positions(cs);
    for i := 0 to carCount
      invariant FirstHit(item, positions, carCount, isMultiplayer, connected, true, 0) ==
                FirstHit(item, positions, carCount, isMultiplayer, connected, true, i)
      invariant CarValues(cars) == cs && pool.activeItems[..] == old(pool.activeItems[..])
    {
      if isMultiplayer && !Present(i, true, connected) {
        continue;
      }
      if isMultiplayer && i == item.shooterCarIndex {
        continue;
      }
      var hasImmunity := item.immunityTimer > 0 || (item.immunityTimer == -1 && !item.hasCompletedLap);
      if !isMultiplayer && hasImmunity && i == item.shooterCarIndex {
        continue;
      }
      if ItemHitsCar(item.position, cars[i].position, item.hitboxWidth) {
        assert FirstHit(item, positions, carCount, isMultiplayer, connected, true, i) == i;
        if item.kind == ITEM_GREEN_SHELL || item.kind == ITEM_RED_SHELL {
          ApplyShellHitEffect(cars[i], roll);
        } else if item.kind == ITEM_MISSILE {
          cars[i].speed := 0;
        }
        pool.activeItems[slot] := item.(active := false);
        assert CarValues(cars) == cs[i := ProjectileHit(item.kind, cs[i], roll)];
        return;
      }
    }
  }

  /**
   * The car walk of checkHazardCollision for a slick: every present car
   * within reach goes through applyOilHitEffect, and the slick stays.
   */
  method OilContactWalk(effects: PlayerItemEffects, item: TrackItem, cars: seq<Car>, carCount: int, race: RaceView,
                        connected: seq<bool>)
    requires item.kind == ITEM_OIL && item.active && Distinct(cars) && 0 <= carCount <= |cars|
    modifies cars, effects
    ensures var isMultiplayer := race.gameMode == MultiPlayer;
      CarValues(cars) == OilSweep(item, old(CarValues(cars)), carCount, isMultiplayer, connected) &&
      effects.Value() == OilEffects(old(effects.Value()), item, old(CarValues(cars)), carCount, race, connected)
  {
    var isMultiplayer := race.gameMode == MultiPlayer;
    ghost var cs := CarValues(cars);
    ghost var e := effects.Value();
    ghost var positions := Positions(cs);
    ghost var sweep := OilSweep(item, cs, carCount, isMultiplayer, connected);
    ghost var p := race.playerIndex;
    for i := 0 to carCount
      invariant forall k | 0 <= k < |cars| :: cars[k].State() == if k < i then sweep[k] else cs[k]
      invariant effects.Value() ==
          if 0 <= p < i && Hits(item, positions, isMultiplayer, connected, false, p)
          then e.(oilSlowActive := true, oilSlowStart := cs[p].position) else e
    {
      assert cars[i].State() == cs[i];
      if isMultiplayer && !Present(i, true, connected) {
        continue;
      }
      if ItemHitsCar(item.position, cars[i].position, item.hitboxWidth) {
        ApplyOilHitEffect(effects, cars[i], i, race.playerIndex);
      }
    }
    assert CarValues(cars) == sweep;
  }

  /**
   * The car walk of checkHazardCollision for any other hazard: the first
   * present car within reach sets off a banana or a bomb, which then ends.
   */
  method FirstContactWalk(pool: ItemPool, slot: int, cars: seq<Car>, carCount: int, race: RaceView, connected: seq<bool>)
    requires pool.Valid() && 0 <= slot < MAX_TRACK_ITEMS && pool.activeItems[slot].kind != ITEM_OIL
    requires Distinct(cars) && 0 <= carCount <= |cars|
    modifies pool.activeItems, cars
    ensures var r := HazardContact(old(pool.activeItems[slot]), old(CarValues(cars)), pool.playerEffects.Value(),
                                   carCount, race, connected);
      pool.activeItems[..] == old(pool.activeItems[..])[slot := r.0] && CarValues(cars) == r.1
  {
    var isMultiplayer := race.gameMode == MultiPlayer;
    var item := pool.activeItems[slot];
    ghost var cs := CarValues(cars);
    ghost var positions := Positions(cs);
    for i := 0 to carCount
      invariant FirstHit(item, positions, carCount, isMultiplayer, connected, false, 0) ==
                FirstHit(item, positions, carCount, isMultiplayer, connected, false, i) ||
                (item.kind != ITEM_BANANA && item.kind != ITEM_BOMB)
      invariant CarValues(cars) == cs && pool.activeItems[..] == old(pool.activeItems[..])
    {
      assert cars[i].State() == cs[i];
      if isMultiplayer && !Present(i, true, connected) {
        continue;
      }
      if ItemHitsCar(item.position, cars[i].position, item.hitboxWidth) {
        if item.kind == ITEM_BANANA {
          assert FirstHit(item, positions, carCount, isMultiplayer, connected, false, i) == i;
          ApplyBananaHitEffect(cars[i]);
          pool.activeItems[slot] := item.(active := false);
          assert CarValues(cars) == cs[i := BananaHit(cs[i])];
          return;
        } else if item.kind == ITEM_BOMB {
          assert FirstHit(item, positions, carCount, isMultiplayer, connected, false, i) == i;
          ExplodeBomb(item.position, cars, carCount, isMultiplayer, connected);
          pool.activeItems[slot] := item.(active := false);
          return;
        }
      }
    }
  }

  /**
   * The car walk of checkHazardCollision, on the active hazard in `slot`.
   * The kind never changes during the walk, so the walk is split by kind.
   */
  method HazardContactWalk(pool: ItemPool, slot: int, cars: seq<Car>, carCount: int, race: RaceView, connected: seq<bool>)
    requires pool.Valid() && 0 <= slot < MAX_TRACK_ITEMS && pool.activeItems[slot].active
    requires Distinct(cars) && 0 <= carCount <= |cars|
    modifies pool.activeItems, cars, pool.playerEffects
    ensures var r := HazardContact(old(pool.activeItems[slot]), old(CarValues(cars)), old(pool.playerEffects.Value()),
                                   carCount, race, connected);
      pool.activeItems[..] == old(pool.activeItems[..])[slot := r.0] && CarValues(cars) == r.1 &&
      pool.playerEffects.Value() == r.2
  {
    var item := pool.activeItems[slot];
    if item.kind == ITEM_OIL {
      OilContactWalk(pool.playerEffects, item, cars, carCount, race, connected);
      assert pool.activeItems[..] == old(pool.activeItems[..])[slot := item];
    } else {
      FirstContactWalk(pool, slot, cars, carCount, race, connected);
    }
  }

  /** checkHazardCollision on the active hazard in `slot`: the car walk, then the bomb's timer. */
  method CheckHazardCollision(pool: ItemPool, slot: int, cars: seq<Car>, carCount: int, race: RaceView,
                              connected: seq<bool>)
    requires pool.Valid() && 0 <= slot < MAX_TRACK_ITEMS && pool.activeItems[slot].active
    requires Distinct(cars) && 0 <= carCount <= |cars|
    modifies pool.activeItems, cars, pool.playerEffects
    ensures var r := HazardCheck(old(pool.activeItems[slot]), old(CarValues(cars)), old(pool.playerEffects.Value()),
                                 carCount, race, connected);
      pool.activeItems[..] == old(pool.activeItems[..])[slot := r.0] && CarValues(cars) == r.1 &&
      pool.playerEffects.Value() == r.2
  {
    HazardContactWalk(pool, slot, cars, carCount, race, connected);
    DetonateIfDue(pool, slot, cars, carCount, race.gameMode == MultiPlayer, connected);
  }

  /** The bomb's timer after the contact pass: a spent bomb blasts the cars and leaves the pool. */
  method DetonateIfDue(pool: ItemPool, slot: int, cars: seq<Car>, carCount: int, isMultiplayer: bool,
                       connected: seq<bool>)
    requires pool.Valid() && 0 <= slot < MAX_TRACK_ITEMS
    requires Distinct(cars) && 0 <= carCount <= |cars|
    modifies pool.activeItems, cars
    ensures var it := old(pool.activeItems[slot]);
      if it.kind == ITEM_BOMB && it.lifetimeTicks <= 0 then
        pool.activeItems[..] == old(pool.activeItems[..])[slot := it.(active := false)] &&
        CarValues(cars) == Blast(old(CarValues(cars)), it.position, carCount, isMultiplayer, connected)
      else pool.activeItems[..] == old(pool.activeItems[..]) && CarValues(cars) == old(CarValues(cars))
  {
    var item := pool.activeItems[slot];
    if item.kind == ITEM_BOMB && item.lifetimeTicks <= 0 {
      ExplodeBomb(item.position, cars, carCount, isMultiplayer, connected);
      pool.activeItems[slot] := item.(active := false);
    }
  }

  // ---------------------------------------------------------------------
  // The passes over the pool and the boxes
  // ---------------------------------------------------------------------

  /**
   * checkAllProjectileCollisions on values, from slot i on: every active
   * shell or missile near the screen is checked against the cars, in slot
   * order; rolls[k] is the rand() a shell in slot k would use.
   */
  function ProjectilePass(items: seq<TrackItem>, cs: seq<CarValue>, carCount: int, race: RaceView, connected: seq<bool>,
                          scrollX: int, scrollY: int, rolls: seq<nat>, i: nat): (r: (seq<TrackItem>, seq<CarValue>))
    requires carCount <= |cs| && i <= |items| <= |rolls|
    ensures |r.0| == |items| && |r.1| == |cs|
    decreases |items| - i
  {
    if i == |items| then (items, cs)
    else
      var it := items[i];
      if it.active && IsProjectile(it.kind) && NearScreen(it.position, scrollX, scrollY) then
        var c := ProjectileCheck(it, cs, carCount, race.gameMode == MultiPlayer, connected, rolls[i]);
        ProjectilePass(items[i := c.0], c.1, carCount, race, connected, scrollX, scrollY, rolls, i + 1)
      else ProjectilePass(items, cs, carCount, race, connected, scrollX, scrollY, rolls, i + 1)
  }

  /**
   * The projectile pass only ever ends projectiles that were active, leaves
   * every other slot as it was, and moves no car.
   */
  lemma {:induction false} ProjectilePassOnlyEnds(items: seq<TrackItem>, cs: seq<CarValue>, carCount: int, race: RaceView,
                                                  connected: seq<bool>, scrollX: int, scrollY: int, rolls: seq<nat>, i: nat)
    requires carCount <= |cs| && i <= |items| <= |rolls|
    ensures var r := ProjectilePass(items, cs, carCount, race, connected, scrollX, scrollY, rolls, i);
      Positions(r.1) == Positions(cs) &&
      forall k | 0 <= k < |items| ::
        r.0[k] == items[k] ||
        (i <= k && items[k].active && IsProjectile(items[k].kind) && r.0[k] == items[k].(active := false))
    decreases |items| - i
  {
    if i < |items| {
      var it := items[i];
      if it.active && IsProjectile(it.kind) && NearScreen(it.position, scrollX, scrollY) {
        var c := ProjectileCheck(it, cs, carCount, race.gameMode == MultiPlayer, connected, rolls[i]);
        ProjectileHitsAtMostOne(it, cs, carCount, race.gameMode == MultiPlayer, connected, rolls[i]);
        ProjectilePassOnlyEnds(items[i := c.0], c.1, carCount, race, connected, scrollX, scrollY, rolls, i + 1);
      } else {
        ProjectilePassOnlyEnds(items, cs, carCount, race, connected, scrollX, scrollY, rolls, i + 1);
      }
    }
  }

  /** checkAllProjectileCollisions. */
  method CheckAllProjectileCollisions(pool: ItemPool, cars: seq<Car>, carCount: int, race: RaceView, connected: seq<bool>,
                                      scrollX: int, scrollY: int, rolls: seq<nat>)
    requires pool.Valid() && Distinct(cars) && 0 <= carCount <= |cars| && |rolls| == MAX_TRACK_ITEMS
    modifies pool.activeItems, cars
    ensures (pool.activeItems[..], CarValues(cars)) ==
      ProjectilePass(old(pool.activeItems[..]), old(CarValues(cars)), carCount, race, connected, scrollX, scrollY, rolls, 0)
  {
    for i := 0 to MAX_TRACK_ITEMS
      invariant ProjectilePass(pool.activeItems[..], CarValues(cars), carCount, race, connected, scrollX, scrollY, rolls, i) ==
        ProjectilePass(old(pool.activeItems[..]), old(CarValues(cars)), carCount, race, connected, scrollX, scrollY, rolls, 0)
    {
      if !pool.activeItems[i].active {
        continue;
      }
      var item := pool.activeItems[i];
      if IsProjectile(item.kind) {
        if NearScreen(item.position, scrollX, scrollY) {
          CheckProjectileCollision(pool, i, cars, carCount, race.gameMode == MultiPlayer, connected, rolls[i]);
        }
      }
    }
  }

  /**
   * checkAllHazardCollisions on values, from slot i on: every active
   * banana, slick or bomb near the screen is checked against the cars, in
   * slot order.
   */
  function HazardPass(items: seq<TrackItem>, cs: seq<CarValue>, e: Effects, carCount: int, race: RaceView,
                      connected: seq<bool>, scrollX: int, scrollY: int, i: nat): (r: (seq<TrackItem>, seq<CarValue>, Effects))
    requires carCount <= |cs| && i <= |items|
    ensures |r.0| == |items| && |r.1| == |cs|
    decreases |items| - i
  {
    if i == |items| then (items, cs, e)
    else
      var it := items[i];
      if it.active && IsHazard(it.kind) && NearScreen(it.position, scrollX, scrollY) then
        var c := HazardCheck(it, cs, e, carCount, race, connected);
        HazardPass(items[i := c.0], c.1, c.2, carCount, race, connected, scrollX, scrollY, i + 1)
      else HazardPass(items, cs, e, carCount, race, connected, scrollX, scrollY, i + 1)
  }

  /**
   * The hazard pass only ever ends bananas and bombs that were active:
   * every slick stays, and every other slot is left as it was.
   */
  lemma {:induction false} HazardPassOnlyEnds(items: seq<TrackItem>, cs: seq<CarValue>, e: Effects, carCount: int,
                                             race: RaceView, connected: seq<bool>, scrollX: int, scrollY: int, i: nat)
    requires carCount <= |cs| && i <= |items|
    ensures var r := HazardPass(items, cs, e, carCount, race, connected, scrollX, scrollY, i);
      forall k | 0 <= k < |items| ::
        r.0[k] == items[k] ||
        (i <= k && items[k].active && (items[k].kind == ITEM_BANANA || items[k].kind == ITEM_BOMB) &&
         r.0[k] == items[k].(active := false))
    decreases |items| - i
  {
    if i < |items| {
      var it := items[i];
      if it.active && IsHazard(it.kind) && NearScreen(it.position, scrollX, scrollY) {
        var c := HazardCheck(it, cs, e, carCount, race, connected);
        assert c.0 == it || (it.kind != ITEM_OIL && c.0 == it.(active := false));
        HazardPassOnlyEnds(items[i := c.0], c.1, c.2, carCount, race, connected, scrollX, scrollY, i + 1);
      } else {
        HazardPassOnlyEnds(items, cs, e, carCount, race, connected, scrollX, scrollY, i + 1);
      }
    }
  }

  /** checkAllHazardCollisions. */
  method CheckAllHazardCollisions(pool: ItemPool, cars: seq<Car>, carCount: int, race: RaceView, connected: seq<bool>,
                                  scrollX: int, scrollY: int)
    requires pool.Valid() && Distinct(cars) && 0 <= carCount <= |cars|
    modifies pool.activeItems, cars, pool.playerEffects
    ensures (pool.activeItems[..], CarValues(cars), pool.playerEffects.Value()) ==
      HazardPass(old(pool.activeItems[..]), old(CarValues(cars)), old(pool.playerEffects.Value()), carCount, race,
                 connected, scrollX, scrollY, 0)
  {
    for i := 0 to MAX_TRACK_ITEMS
      invariant HazardPass(pool.activeItems[..], CarValues(cars), pool.playerEffects.Value(), carCount, race, connected,
                           scrollX, scrollY, i) ==
        HazardPass(old(pool.activeItems[..]), old(CarValues(cars)), old(pool.playerEffects.Value()), carCount, race,
                   connected, scrollX, scrollY, 0)
    {
      if !pool.activeItems[i].active {
        continue;
      }
      var item := pool.activeItems[i];
      if IsHazard(item.kind) {
        if NearScreen(item.position, scrollX, scrollY) {
          CheckHazardCollision(pool, i, cars, carCount, race, connected);
        }
      }
    }
  }

  /** The first present car from `from` on that reaches the box, or -1. */
  function BoxPicker(box: ItemBoxSpawn, positions: seq<Vec2>, carCount: int, isMultiplayer: bool, connected: seq<bool>,
                     from: nat): (r: int)
    requires carCount <= |positions|
    ensures r == -1 || from <= r < carCount
    ensures r >= 0 ==>
              Present(r, isMultiplayer, connected) && PicksUpBox(positions[r], box.position) &&
              forall j | from <= j < r :: !(Present(j, isMultiplayer, connected) && PicksUpBox(positions[j], box.position))
    ensures r == -1 ==>
              forall j | from <= j < carCount :: !(Present(j, isMultiplayer, connected) && PicksUpBox(positions[j], box.position))
    decreases carCount - from
  {
    if from >= carCount then -1
    else if Present(from, isMultiplayer, connected) && PicksUpBox(positions[from], box.position) then from
    else BoxPicker(box, positions, carCount, isMultiplayer, connected, from + 1)
  }

  /** The local player's car draws an item when it reaches a box empty-handed. */
  predicate CanDraw(cs: seq<CarValue>, carCount: int, race: RaceView, tableMP: seq<ItemProbability>,
                    tableSP: seq<ItemProbability>)
    requires carCount <= |cs|
  {
    var p := race.playerIndex;
    |tableMP| == 8 && |tableSP| == 8 &&
    (0 <= p < carCount && cs[p].item == ITEM_NONE ==> Total(TableFor(race.gameMode, tableMP, tableSP)[RankIndex(cs[p].rank)]) != 0)
  }

  /**
   * handleItemBoxPickup on values: the box is taken; if the picker is the
   * local player, an empty hand draws an item and, in multiplayer, the box
   * index is sent.
   */
  function Pickup(boxes: seq<ItemBoxSpawn>, b: int, cs: seq<CarValue>, c: int, race: RaceView,
                  tableMP: seq<ItemProbability>, tableSP: seq<ItemProbability>, rand: nat): (r: (seq<ItemBoxSpawn>, seq<CarValue>, seq<int>))
    requires 0 <= b < |boxes| && 0 <= c < |cs| && |tableMP| == 8 && |tableSP| == 8
    requires c == race.playerIndex && cs[c].item == ITEM_NONE ==>
      Total(TableFor(race.gameMode, tableMP, tableSP)[RankIndex(cs[c].rank)]) != 0
    ensures |r.0| == |boxes| && |r.1| == |cs|
    ensures r.1 == cs || (r.1 == cs[c := cs[c].(item := r.1[c].item)] && r.1[c].item != ITEM_NONE)
    ensures Positions(r.1) == Positions(cs)
  {
    var cars :=
      if c == race.playerIndex && cs[c].item == ITEM_NONE
      then cs[c := cs[c].(item := GetRandomItem(cs[c].rank, race.gameMode, tableMP, tableSP, rand))]
      else cs;
    var sent := if c == race.playerIndex && race.gameMode == MultiPlayer then [b] else [];
    (boxes[b := TakenBox(boxes[b])], cars, sent)
  }

  /** One box of checkItemBoxCollisions: an active box is taken by the first present car that reaches it. */
  function BoxStep(boxes: seq<ItemBoxSpawn>, cs: seq<CarValue>, carCount: int, race: RaceView, connected: seq<bool>,
                   tableMP: seq<ItemProbability>, tableSP: seq<ItemProbability>, rand: nat, i: nat)
    : (r: (seq<ItemBoxSpawn>, seq<CarValue>, seq<int>))
    requires i < |boxes| && carCount <= |cs| && CanDraw(cs, carCount, race, tableMP, tableSP)
    ensures |r.0| == |boxes| && |r.1| == |cs| && CanDraw(r.1, carCount, race, tableMP, tableSP)
    ensures Positions(r.1) == Positions(cs)
  {
    if !boxes[i].active then (boxes, cs, [])
    else
      var c := BoxPicker(boxes[i], Positions(cs), carCount, race.gameMode == MultiPlayer, connected, 0);
      if c < 0 then (boxes, cs, []) else Pickup(boxes, i, cs, c, race, tableMP, tableSP, rand)
  }

  /**
   * checkItemBoxCollisions on values, from box i on: each active box in use
   * is taken by the first present car that reaches it; the third component
   * lists the box indices sent to the other players.
   */
  function BoxPass(boxes: seq<ItemBoxSpawn>, count: int, cs: seq<CarValue>, carCount: int, race: RaceView,
                   connected: seq<bool>, tableMP: seq<ItemProbability>, tableSP: seq<ItemProbability>, rand: nat,
                   i: nat): (r: (seq<ItemBoxSpawn>, seq<CarValue>, seq<int>))
    requires count <= |boxes| && i <= count && carCount <= |cs| && CanDraw(cs, carCount, race, tableMP, tableSP)
    ensures |r.0| == |boxes| && |r.1| == |cs|
    decreases count - i
  {
    if i == count then (boxes, cs, [])
    else
      var step := BoxStep(boxes, cs, carCount, race, connected, tableMP, tableSP, rand, i);
      var rest := BoxPass(step.0, count, step.1, carCount, race, connected, tableMP, tableSP, rand, i + 1);
      (rest.0, rest.1, step.2 + rest.2)
  }

  /** A box that is inactive or that no present car reaches leaves the pass from the next box unchanged. */
  lemma BoxPassSkip(boxes: seq<ItemBoxSpawn>, count: int, cs: seq<CarValue>, carCount: int, race: RaceView,
                    connected: seq<bool>, tableMP: seq<ItemProbability>, tableSP: seq<ItemProbability>, rand: nat, i: nat)
    requires count <= |boxes| && i < count && carCount <= |cs| && CanDraw(cs, carCount, race, tableMP, tableSP)
    requires !boxes[i].active ||
             BoxPicker(boxes[i], Positions(cs), carCount, race.gameMode == MultiPlayer, connected, 0) < 0
    ensures BoxPass(boxes, count, cs, carCount, race, connected, tableMP, tableSP, rand, i) ==
            BoxPass(boxes, count, cs, carCount, race, connected, tableMP, tableSP, rand, i + 1)
  {
    var rest := BoxPass(boxes, count, cs, carCount, race, connected, tableMP, tableSP, rand, i + 1);
    assert [] + rest.2 == rest.2;
  }

  /** A box some present car reaches is taken by the first of them, and the pass goes on from the next box. */
  lemma BoxPassTake(boxes: seq<ItemBoxSpawn>, count: int, cs: seq<CarValue>, carCount: int, race: RaceView,
                    connected: seq<bool>, tableMP: seq<ItemProbability>, tableSP: seq<ItemProbability>, rand: nat, i: nat)
    requires count <= |boxes| && i < count && carCount <= |cs| && CanDraw(cs, carCount, race, tableMP, tableSP)
    requires boxes[i].active
    requires BoxPicker(boxes[i], Positions(cs), carCount, race.gameMode == MultiPlayer, connected, 0) >= 0
    ensures var c := BoxPicker(boxes[i], Positions(cs), carCount, race.gameMode == MultiPlayer, connected, 0);
      c < carCount &&
      var p := Pickup(boxes, i, cs, c, race, tableMP, tableSP, rand);
      p.0 == boxes[i := TakenBox(boxes[i])] && Positions(p.1) == Positions(cs) &&
      CanDraw(p.1, carCount, race, tableMP, tableSP) &&
      p.2 == (if c == race.playerIndex && race.gameMode == MultiPlayer then [i] else []) &&
      var rest := BoxPass(p.0, count, p.1, carCount, race, connected, tableMP, tableSP, rand, i + 1);
      BoxPass(boxes, count, cs, carCount, race, connected, tableMP, tableSP, rand, i) == (rest.0, rest.1, p.2 + rest.2)
  {
  }

  /**
   * The pass takes exactly the active boxes in use that some present car
   * reaches, and touches no other box.
   */
  lemma {:induction false} BoxPassTakesReachedBoxes(boxes: seq<ItemBoxSpawn>, count: int, cs: seq<CarValue>, carCount: int,
                                                   race: RaceView, connected: seq<bool>, tableMP: seq<ItemProbability>,
                                                   tableSP: seq<ItemProbability>, rand: nat, i: nat)
    requires count <= |boxes| && i <= count && carCount <= |cs| && CanDraw(cs, carCount, race, tableMP, tableSP)
    ensures var r := BoxPass(boxes, count, cs, carCount, race, connected, tableMP, tableSP, rand, i);
      var isMultiplayer := race.gameMode == MultiPlayer;
      Positions(r.1) == Positions(cs) &&
      (forall k | 0 <= k < |boxes| && !(i <= k < count) :: r.0[k] == boxes[k]) &&
      forall k | i <= k < count ::
        r.0[k] == if boxes[k].active && BoxPicker(boxes[k], Positions(cs), carCount, isMultiplayer, connected, 0) >= 0
                  then TakenBox(boxes[k]) else boxes[k]
    decreases count - i
  {
    if i < count {
      var isMultiplayer := race.gameMode == MultiPlayer;
      var c := BoxPicker(boxes[i], Positions(cs), carCount, isMultiplayer, connected, 0);
      if !boxes[i].active || c < 0 {
        BoxPassSkip(boxes, count, cs, carCount, race, connected, tableMP, tableSP, rand, i);
        BoxPassTakesReachedBoxes(boxes, count, cs, carCount, race, connected, tableMP, tableSP, rand, i + 1);
      } else {
        BoxPassTake(boxes, count, cs, carCount, race, connected, tableMP, tableSP, rand, i);
        var p := Pickup(boxes, i, cs, c, race, tableMP, tableSP, rand);
        BoxPassTakesReachedBoxes(p.0, count, p.1, carCount, race, connected, tableMP, tableSP, rand, i + 1);
      }
    }
  }

  /** Only the local player's car changes, and only by drawing an item into an empty hand. */
  lemma {:induction false} BoxPassRewardsOnlyThePlayer(boxes: seq<ItemBoxSpawn>, count: int, cs: seq<CarValue>,
                                                      carCount: int, race: RaceView, connected: seq<bool>,
                                                      tableMP: seq<ItemProbability>, tableSP: seq<ItemProbability>,
                                                      rand: nat, i: nat)
    requires count <= |boxes| && i <= count && carCount <= |cs| && CanDraw(cs, carCount, race, tableMP, tableSP)
    ensures var r := BoxPass(boxes, count, cs, carCount, race, connected, tableMP, tableSP, rand, i);
      var pl := race.playerIndex;
      (forall k | 0 <= k < |cs| && k != pl :: r.1[k] == cs[k]) &&
      (0 <= pl < |cs| ==>
         r.1[pl] == cs[pl] ||
         (cs[pl].item == ITEM_NONE && r.1[pl] == cs[pl].(item := r.1[pl].item) && r.1[pl].item in DRAW_ORDER))
    decreases count - i
  {
    if i < count {
      var isMultiplayer := race.gameMode == MultiPlayer;
      var c := BoxPicker(boxes[i], Positions(cs), carCount, isMultiplayer, connected, 0);
      if !boxes[i].active || c < 0 {
        BoxPassSkip(boxes, count, cs, carCount, race, connected, tableMP, tableSP, rand, i);
        BoxPassRewardsOnlyThePlayer(boxes, count, cs, carCount, race, connected, tableMP, tableSP, rand, i + 1);
      } else {
        BoxPassTake(boxes, count, cs, carCount, race, connected, tableMP, tableSP, rand, i);
        var p := Pickup(boxes, i, cs, c, race, tableMP, tableSP, rand);
        BoxPassRewardsOnlyThePlayer(p.0, count, p.1, carCount, race, connected, tableMP, tableSP, rand, i + 1);
      }
    }
  }

  /** The box indices the pass from box i on reports to the other players. */
  function Sent(boxes: seq<ItemBoxSpawn>, count: int, cs: seq<CarValue>, carCount: int, race: RaceView,
                connected: seq<bool>, tableMP: seq<ItemProbability>, tableSP: seq<ItemProbability>, rand: nat,
                i: nat): seq<int>
    requires count <= |boxes| && i <= count && carCount <= |cs| && CanDraw(cs, carCount, race, tableMP, tableSP)
  {
    BoxPass(boxes, count, cs, carCount, race, connected, tableMP, tableSP, rand, i).2
  }

  /** A skipped box reports nothing. */
  lemma SentSkip(boxes: seq<ItemBoxSpawn>, count: int, cs: seq<CarValue>, carCount: int, race: RaceView,
                 connected: seq<bool>, tableMP: seq<ItemProbability>, tableSP: seq<ItemProbability>, rand: nat, i: nat)
    requires count <= |boxes| && i < count && carCount <= |cs| && CanDraw(cs, carCount, race, tableMP, tableSP)
    requires !boxes[i].active ||
             BoxPicker(boxes[i], Positions(cs), carCount, race.gameMode == MultiPlayer, connected, 0) < 0
    ensures Sent(boxes, count, cs, carCount, race, connected, tableMP, tableSP, rand, i) ==
            Sent(boxes, count, cs, carCount, race, connected, tableMP, tableSP, rand, i + 1)
  {
    BoxPassSkip(boxes, count, cs, carCount, race, connected, tableMP, tableSP, rand, i);
  }

  /**
   * A taken box is reported first when the local player took it in
   * multiplayer; the boxes after it are as they were, and so are the positions.
   */
  lemma SentTake(boxes: seq<ItemBoxSpawn>, count: int, cs: seq<CarValue>, carCount: int, race: RaceView,
                 connected: seq<bool>, tableMP: seq<ItemProbability>, tableSP: seq<ItemProbability>, rand: nat, i: nat)
    requires count <= |boxes| && i < count && carCount <= |cs| && CanDraw(cs, carCount, race, tableMP, tableSP)
    requires boxes[i].active
    requires BoxPicker(boxes[i], Positions(cs), carCount, race.gameMode == MultiPlayer, connected, 0) >= 0
    ensures var c := BoxPicker(boxes[i], Positions(cs), carCount, race.gameMode == MultiPlayer, connected, 0);
      var p := Pickup(boxes, i, cs, c, race, tableMP, tableSP, rand);
      c < carCount && |p.0| == |boxes| && |p.1| == |cs| && CanDraw(p.1, carCount, race, tableMP, tableSP) &&
      (forall k | i < k < |boxes| :: p.0[k] == boxes[k]) && Positions(p.1) == Positions(cs) &&
      Sent(boxes, count, cs, carCount, race, connected, tableMP, tableSP, rand, i) ==
        (if c == race.playerIndex && race.gameMode == MultiPlayer then [i] else []) +
        Sent(p.0, count, p.1, carCount, race, connected, tableMP, tableSP, rand, i + 1)
  {
    BoxPassTake(boxes, count, cs, carCount, race, connected, tableMP, tableSP, rand, i);
  }

  /** Nothing is reported in single player. */
  lemma {:induction false} SentOnlyInMultiplayer(boxes: seq<ItemBoxSpawn>, count: int, cs: seq<CarValue>,
                                                      carCount: int, race: RaceView, connected: seq<bool>,
                                                      tableMP: seq<ItemProbability>, tableSP: seq<ItemProbability>,
                                                      rand: nat, i: nat)
    requires count <= |boxes| && i <= count && carCount <= |cs| && CanDraw(cs, carCount, race, tableMP, tableSP)
    ensures race.gameMode != MultiPlayer ==> Sent(boxes, count, cs, carCount, race, connected, tableMP, tableSP, rand, i) == []
    decreases count - i
  {
    if i < count {
      var c := BoxPicker(boxes[i], Positions(cs), carCount, race.gameMode == MultiPlayer, connected, 0);
      if !boxes[i].active || c < 0 {
        SentSkip(boxes, count, cs, carCount, race, connected, tableMP, tableSP, rand, i);
        SentOnlyInMultiplayer(boxes, count, cs, carCount, race, connected, tableMP, tableSP, rand, i + 1);
      } else {
        SentTake(boxes, count, cs, carCount, race, connected, tableMP, tableSP, rand, i);
        var p := Pickup(boxes, i, cs, c, race, tableMP, tableSP, rand);
        SentOnlyInMultiplayer(p.0, count, p.1, carCount, race, connected, tableMP, tableSP, rand, i + 1);
      }
    }
  }

  /** Every box index reported is an active box in range whose first present visitor is the local player. */
  lemma {:induction false} SentArePlayerPickups(boxes: seq<ItemBoxSpawn>, count: int, cs: seq<CarValue>,
                                                      carCount: int, race: RaceView, connected: seq<bool>,
                                                      tableMP: seq<ItemProbability>, tableSP: seq<ItemProbability>,
                                                      rand: nat, i: nat)
    requires count <= |boxes| && i <= count && carCount <= |cs| && CanDraw(cs, carCount, race, tableMP, tableSP)
    ensures var sent := Sent(boxes, count, cs, carCount, race, connected, tableMP, tableSP, rand, i);
      forall j | 0 <= j < |sent| ::
        i <= sent[j] < count && boxes[sent[j]].active &&
        BoxPicker(boxes[sent[j]], Positions(cs), carCount, race.gameMode == MultiPlayer, connected, 0) == race.playerIndex
    decreases count - i
  {
    if i < count {
      var c := BoxPicker(boxes[i], Positions(cs), carCount, race.gameMode == MultiPlayer, connected, 0);
      if !boxes[i].active || c < 0 {
        SentSkip(boxes, count, cs, carCount, race, connected, tableMP, tableSP, rand, i);
        SentArePlayerPickups(boxes, count, cs, carCount, race, connected, tableMP, tableSP, rand, i + 1);
      } else {
        SentTake(boxes, count, cs, carCount, race, connected, tableMP, tableSP, rand, i);
        var p := Pickup(boxes, i, cs, c, race, tableMP, tableSP, rand);
        SentArePlayerPickups(p.0, count, p.1, carCount, race, connected, tableMP, tableSP, rand, i + 1);
      }
    }
  }

  /** The reported box indices increase. */
  lemma {:induction false} SentIncreasing(boxes: seq<ItemBoxSpawn>, count: int, cs: seq<CarValue>,
                                                      carCount: int, race: RaceView, connected: seq<bool>,
                                                      tableMP: seq<ItemProbability>, tableSP: seq<ItemProbability>,
                                                      rand: nat, i: nat)
    requires count <= |boxes| && i <= count && carCount <= |cs| && CanDraw(cs, carCount, race, tableMP, tableSP)
    ensures var sent := Sent(boxes, count, cs, carCount, race, connected, tableMP, tableSP, rand, i);
      forall j1, j2 | 0 <= j1 < j2 < |sent| :: sent[j1] < sent[j2]
    decreases count - i
  {
    if i < count {
      var c := BoxPicker(boxes[i], Positions(cs), carCount, race.gameMode == MultiPlayer, connected, 0);
      if !boxes[i].active || c < 0 {
        SentSkip(boxes, count, cs, carCount, race, connected, tableMP, tableSP, rand, i);
        SentIncreasing(boxes, count, cs, carCount, race, connected, tableMP, tableSP, rand, i + 1);
      } else {
        SentTake(boxes, count, cs, carCount, race, connected, tableMP, tableSP, rand, i);
        var p := Pickup(boxes, i, cs, c, race, tableMP, tableSP, rand);
        var rest := Sent(p.0, count, p.1, carCount, race, connected, tableMP, tableSP, rand, i + 1);
        SentIncreasing(p.0, count, p.1, carCount, race, connected, tableMP, tableSP, rand, i + 1);
        SentArePlayerPickups(p.0, count, p.1, carCount, race, connected, tableMP, tableSP, rand, i + 1);
        assert forall j | 0 <= j < |rest| :: i < rest[j];
        if c == race.playerIndex && race.gameMode == MultiPlayer {
          PrependBelow(i, rest);
        }
      }
    }
  }

  /** An increasing sequence whose elements all exceed i stays increasing with i in front. */
  lemma PrependBelow(i: int, s: seq<int>)
    requires forall j1, j2 | 0 <= j1 < j2 < |s| :: s[j1] < s[j2]
    requires forall j | 0 <= j < |s| :: i < s[j]
    ensures forall j1, j2 | 0 <= j1 < j2 < |[i] + s| :: ([i] + s)[j1] < ([i] + s)[j2]
  {
  }

  /**
   * Every box index reported to the other players is one the local player
   * took, in increasing order; none are reported in single player.
   */
  lemma BoxPassReportsOnlyPlayerPickups(boxes: seq<ItemBoxSpawn>, count: int, cs: seq<CarValue>,
                                                      carCount: int, race: RaceView, connected: seq<bool>,
                                                      tableMP: seq<ItemProbability>, tableSP: seq<ItemProbability>,
                                                      rand: nat, i: nat)
    requires count <= |boxes| && i <= count && carCount <= |cs| && CanDraw(cs, carCount, race, tableMP, tableSP)
    ensures race.gameMode != MultiPlayer ==> Sent(boxes, count, cs, carCount, race, connected, tableMP, tableSP, rand, i) == []
    ensures var sent := Sent(boxes, count, cs, carCount, race, connected, tableMP, tableSP, rand, i);
      forall j | 0 <= j < |sent| ::
        i <= sent[j] < count && boxes[sent[j]].active &&
        BoxPicker(boxes[sent[j]], Positions(cs), carCount, race.gameMode == MultiPlayer, connected, 0) == race.playerIndex
    ensures var sent := Sent(boxes, count, cs, carCount, race, connected, tableMP, tableSP, rand, i);
      forall j1, j2 | 0 <= j1 < j2 < |sent| :: sent[j1] < sent[j2]
  {
    SentOnlyInMultiplayer(boxes, count, cs, carCount, race, connected, tableMP, tableSP, rand, i);
    SentArePlayerPickups(boxes, count, cs, carCount, race, connected, tableMP, tableSP, rand, i);
    SentIncreasing(boxes, count, cs, carCount, race, connected, tableMP, tableSP, rand, i);
  }

  /** In multiplayer, every box the local player takes is reported to the other players. */
  lemma {:induction false} BoxPassReportsEveryPlayerPickup(boxes: seq<ItemBoxSpawn>, count: int, cs: seq<CarValue>,
                                                      carCount: int, race: RaceView, connected: seq<bool>,
                                                      tableMP: seq<ItemProbability>, tableSP: seq<ItemProbability>,
                                                      rand: nat, i: nat)
    requires count <= |boxes| && i <= count && carCount <= |cs| && CanDraw(cs, carCount, race, tableMP, tableSP)
    ensures race.gameMode == MultiPlayer && 0 <= race.playerIndex ==>
      forall k | i <= k < count && boxes[k].active &&
                 BoxPicker(boxes[k], Positions(cs), carCount, true, connected, 0) == race.playerIndex ::
        k in Sent(boxes, count, cs, carCount, race, connected, tableMP, tableSP, rand, i)
    decreases count - i
  {
    if i < count {
      var isMultiplayer := race.gameMode == MultiPlayer;
      var c := BoxPicker(boxes[i], Positions(cs), carCount, isMultiplayer, connected, 0);
      if !boxes[i].active || c < 0 {
        SentSkip(boxes, count, cs, carCount, race, connected, tableMP, tableSP, rand, i);
        BoxPassReportsEveryPlayerPickup(boxes, count, cs, carCount, race, connected, tableMP, tableSP, rand, i + 1);
      } else {
        SentTake(boxes, count, cs, carCount, race, connected, tableMP, tableSP, rand, i);
        var p := Pickup(boxes, i, cs, c, race, tableMP, tableSP, rand);
        BoxPassReportsEveryPlayerPickup(p.0, count, p.1, carCount, race, connected, tableMP, tableSP, rand, i + 1);
      }
    }
  }

  /**
   * handleItemBoxPickup; the result lists the box index sent to the other
   * players (Multiplayer_SendItemBoxPickup), if any.
   */
  method HandleItemBoxPickup(pool: ItemPool, cars: seq<Car>, carIndex: int, boxIndex: int, race: RaceView,
                             tableMP: seq<ItemProbability>, tableSP: seq<ItemProbability>, rand: nat)
    returns (sent: seq<int>)
    requires pool.Valid() && 0 <= boxIndex < MAX_ITEM_BOX_SPAWNS && 0 <= carIndex < |cars| && Distinct(cars)
    requires |tableMP| == 8 && |tableSP| == 8
    requires carIndex == race.playerIndex && cars[carIndex].item == ITEM_NONE ==>
      Total(TableFor(race.gameMode, tableMP, tableSP)[RankIndex(cars[carIndex].rank)]) != 0
    modifies pool.itemBoxSpawns, cars[carIndex]
    ensures var r := Pickup(old(pool.itemBoxSpawns[..]), boxIndex, old(CarValues(cars)), carIndex, race, tableMP, tableSP, rand);
      pool.itemBoxSpawns[..] == r.0 && CarValues(cars) == r.1 && sent == r.2
  {
    var car := cars[carIndex];
    sent := [];
    if carIndex == race.playerIndex {
      if car.item == ITEM_NONE {
        var receivedItem := GetRandomItem(car.rank, race.gameMode, tableMP, tableSP, rand);
        car.item := receivedItem;
      }
      if race.gameMode == MultiPlayer {
        sent := [boxIndex];
      }
    }
    pool.itemBoxSpawns[boxIndex] := pool.itemBoxSpawns[boxIndex].(active := false, respawnTimer := ITEM_BOX_RESPAWN_TICKS);
  }

  /** The car walk of checkItemBoxCollisions for the active box `boxIndex`. */
  method OfferBox(pool: ItemPool, boxIndex: int, cars: seq<Car>, carCount: int, race: RaceView, connected: seq<bool>,
                  tableMP: seq<ItemProbability>, tableSP: seq<ItemProbability>, rand: nat)
    returns (sent: seq<int>)
    requires pool.Valid() && 0 <= boxIndex < MAX_ITEM_BOX_SPAWNS && pool.itemBoxSpawns[boxIndex].active
    requires Distinct(cars) && 0 <= carCount <= |cars| && CanDraw(CarValues(cars), carCount, race, tableMP, tableSP)
    modifies pool.itemBoxSpawns, cars
    ensures var r := BoxStep(old(pool.itemBoxSpawns[..]), old(CarValues(cars)), carCount, race, connected,
                             tableMP, tableSP, rand, boxIndex);
      pool.itemBoxSpawns[..] == r.0 && CarValues(cars) == r.1 && sent == r.2
  {
    var isMultiplayer := race.gameMode == MultiPlayer;
    ghost var boxes := pool.itemBoxSpawns[..];
    ghost var cs := CarValues(cars);
    ghost var picker := BoxPicker(boxes[boxIndex], Positions(cs), carCount, isMultiplayer, connected, 0);
    sent := [];
    for c := 0 to carCount
      invariant pool.itemBoxSpawns[..] == boxes && CarValues(cars) == cs && sent == []
      invariant picker == BoxPicker(boxes[boxIndex], Positions(cs), carCount, isMultiplayer, connected, c)
    {
      if isMultiplayer && !Present(c, true, connected) {
        continue;
      }
      assert cars[c].State() == cs[c];
      if PicksUpBox(cars[c].position, pool.itemBoxSpawns[boxIndex].position) {
        sent := HandleItemBoxPickup(pool, cars, c, boxIndex, race, tableMP, tableSP, rand);
        return;
      }
    }
  }

  /** One iteration of checkItemBoxCollisions: an inactive box is skipped. */
  method VisitBox(pool: ItemPool, boxIndex: int, cars: seq<Car>, carCount: int, race: RaceView, connected: seq<bool>,
                  tableMP: seq<ItemProbability>, tableSP: seq<ItemProbability>, rand: nat)
    returns (sent: seq<int>)
    requires pool.Valid() && 0 <= boxIndex < MAX_ITEM_BOX_SPAWNS
    requires Distinct(cars) && 0 <= carCount <= |cars| && CanDraw(CarValues(cars), carCount, race, tableMP, tableSP)
    modifies pool.itemBoxSpawns, cars
    ensures var r := BoxStep(old(pool.itemBoxSpawns[..]), old(CarValues(cars)), carCount, race, connected,
                             tableMP, tableSP, rand, boxIndex);
      pool.itemBoxSpawns[..] == r.0 && CarValues(cars) == r.1 && sent == r.2
  {
    if !pool.itemBoxSpawns[boxIndex].active {
      return [];
    }
    sent := OfferBox(pool, boxIndex, cars, carCount, race, connected, tableMP, tableSP, rand);
  }

  /**
   * The loop state of checkItemBoxCollisions before box i: finishing the
   * pass from here leaves the boxes and cars of goal and, after the indices
   * already sent, sends the rest of goal's.
   */
  ghost predicate PassReaches(boxes: seq<ItemBoxSpawn>, count: int, cs: seq<CarValue>, carCount: int, race: RaceView,
                              connected: seq<bool>, tableMP: seq<ItemProbability>, tableSP: seq<ItemProbability>, rand: nat,
                              i: nat, sent: seq<int>, goal: (seq<ItemBoxSpawn>, seq<CarValue>, seq<int>))
  {
    count <= |boxes| && i <= count && carCount <= |cs| && CanDraw(cs, carCount, race, tableMP, tableSP) &&
    var r := BoxPass(boxes, count, cs, carCount, race, connected, tableMP, tableSP, rand, i);
    r.0 == goal.0 && r.1 == goal.1 && sent + r.2 == goal.2
  }

  /** Handling box i as BoxStep does keeps the loop state on course for the same goal. */
  lemma PassReachesStep(boxes: seq<ItemBoxSpawn>, count: int, cs: seq<CarValue>, carCount: int, race: RaceView,
                        connected: seq<bool>, tableMP: seq<ItemProbability>, tableSP: seq<ItemProbability>, rand: nat,
                        i: nat, sent: seq<int>, goal: (seq<ItemBoxSpawn>, seq<CarValue>, seq<int>))
    requires PassReaches(boxes, count, cs, carCount, race, connected, tableMP, tableSP, rand, i, sent, goal) && i < count
    ensures var step := BoxStep(boxes, cs, carCount, race, connected, tableMP, tableSP, rand, i);
      PassReaches(step.0, count, step.1, carCount, race, connected, tableMP, tableSP, rand, i + 1, sent + step.2, goal)
  {
    var step := BoxStep(boxes, cs, carCount, race, connected, tableMP, tableSP, rand, i);
    var rest := BoxPass(step.0, count, step.1, carCount, race, connected, tableMP, tableSP, rand, i + 1);
    assert sent + step.2 + rest.2 == sent + (step.2 + rest.2);
  }

  /** At the end of the pass, the loop state is the goal itself. */
  lemma PassReachesEnd(boxes: seq<ItemBoxSpawn>, count: int, cs: seq<CarValue>, carCount: int, race: RaceView,
                       connected: seq<bool>, tableMP: seq<ItemProbability>, tableSP: seq<ItemProbability>, rand: nat,
                       sent: seq<int>, goal: (seq<ItemBoxSpawn>, seq<CarValue>, seq<int>))
    requires count >= 0 && PassReaches(boxes, count, cs, carCount, race, connected, tableMP, tableSP, rand, count, sent, goal)
    ensures boxes == goal.0 && cs == goal.1 && sent == goal.2
  {
  }

  /** checkItemBoxCollisions; the result lists the box indices sent to the other players, in order. */
  method CheckItemBoxCollisions(pool: ItemPool, cars: seq<Car>, carCount: int, race: RaceView, connected: seq<bool>,
                                tableMP: seq<ItemProbability>, tableSP: seq<ItemProbability>, rand: nat)
    returns (sent: seq<int>)
    requires pool.Valid() && Distinct(cars) && 0 <= carCount <= |cars|
    requires CanDraw(CarValues(cars), carCount, race, tableMP, tableSP)
    modifies pool.itemBoxSpawns, cars
    ensures var r := BoxPass(old(pool.itemBoxSpawns[..]), pool.itemBoxCount, old(CarValues(cars)), carCount, race, connected,
                             tableMP, tableSP, rand, 0);
      pool.itemBoxSpawns[..] == r.0 && CarValues(cars) == r.1 && sent == r.2
  {
    var count := pool.itemBoxCount;
    ghost var goal := BoxPass(pool.itemBoxSpawns[..], count, CarValues(cars), carCount, race, connected,
                              tableMP, tableSP, rand, 0);
    sent := [];
    for i := 0 to count
      invariant PassReaches(pool.itemBoxSpawns[..], count, CarValues(cars), carCount, race, connected,
                            tableMP, tableSP, rand, i, sent, goal)
    {
      ghost var boxes := pool.itemBoxSpawns[..];
      ghost var cs := CarValues(cars);
      PassReachesStep(boxes, count, cs, carCount, race, connected, tableMP, tableSP, rand, i, sent, goal);
      var sentNow := VisitBox(pool, i, cars, carCount, race, connected, tableMP, tableSP, rand);
      sent := sent + sentNow;
    }
    PassReachesEnd(pool.itemBoxSpawns[..], count, CarValues(cars), carCount, race, connected, tableMP, tableSP, rand, sent, goal);
  }

  // ---------------------------------------------------------------------
  // Items_CheckCollisions
  // ---------------------------------------------------------------------

  /** The outcome of a collision frame. */
  datatype Outcome = Outcome(items: seq<TrackItem>, boxes: seq<ItemBoxSpawn>, cars: seq<CarValue>, effects: Effects,
                             sentPickups: seq<int>)

  /** Items_CheckCollisions on values: the boxes, then the projectiles, then the hazards. */
  function Collisions(items: seq<TrackItem>, boxes: seq<ItemBoxSpawn>, count: int, cs: seq<CarValue>, e: Effects,
                      carCount: int, race: RaceView, connected: seq<bool>, scrollX: int, scrollY: int, rolls: seq<nat>,
                      tableMP: seq<ItemProbability>, tableSP: seq<ItemProbability>, rand: nat): Outcome
    requires 0 <= count <= |boxes| && carCount <= |cs| && |items| <= |rolls| && CanDraw(cs, carCount, race, tableMP, tableSP)
  {
    var b := BoxPass(boxes, count, cs, carCount, race, connected, tableMP, tableSP, rand, 0);
    var pr := ProjectilePass(items, b.1, carCount, race, connected, scrollX, scrollY, rolls, 0);
    var h := HazardPass(pr.0, pr.1, e, carCount, race, connected, scrollX, scrollY, 0);
    Outcome(h.0, b.0, h.1, h.2, b.2)
  }

  /**
   * A collision frame places no item and revives none: each slot is kept
   * or an active item in it ends, and an oil slick never ends. It revives
   * no box either: each box is kept or an active box in use is taken.
   */
  lemma CollisionsOnlyEnd(items: seq<TrackItem>, boxes: seq<ItemBoxSpawn>, count: int, cs: seq<CarValue>, e: Effects,
                          carCount: int, race: RaceView, connected: seq<bool>, scrollX: int, scrollY: int, rolls: seq<nat>,
                          tableMP: seq<ItemProbability>, tableSP: seq<ItemProbability>, rand: nat)
    requires 0 <= count <= |boxes| && carCount <= |cs| && |items| <= |rolls| && CanDraw(cs, carCount, race, tableMP, tableSP)
    ensures var r := Collisions(items, boxes, count, cs, e, carCount, race, connected, scrollX, scrollY, rolls,
                                tableMP, tableSP, rand);
      |r.items| == |items| && |r.boxes| == |boxes| &&
      (forall k | 0 <= k < |items| ::
         r.items[k] == items[k] ||
         (items[k].active && items[k].kind != ITEM_OIL && r.items[k] == items[k].(active := false))) &&
      (forall k | 0 <= k < |boxes| ::
         r.boxes[k] == boxes[k] || (k < count && boxes[k].active && r.boxes[k] == TakenBox(boxes[k])))
  {
    var b := BoxPass(boxes, count, cs, carCount, race, connected, tableMP, tableSP, rand, 0);
    var pr := ProjectilePass(items, b.1, carCount, race, connected, scrollX, scrollY, rolls, 0);
    BoxPassTakesReachedBoxes(boxes, count, cs, carCount, race, connected, tableMP, tableSP, rand, 0);
    ProjectilePassOnlyEnds(items, b.1, carCount, race, connected, scrollX, scrollY, rolls, 0);
    HazardPassOnlyEnds(pr.0, pr.1, e, carCount, race, connected, scrollX, scrollY, 0);
  }

  /** Items_CheckCollisions; the result lists the box indices sent to the other players. */
  method CheckCollisions(pool: ItemPool, cars: seq<Car>, carCount: int, race: RaceView, connected: seq<bool>,
                         scrollX: int, scrollY: int, rolls: seq<nat>, tableMP: seq<ItemProbability>,
                         tableSP: seq<ItemProbability>, rand: nat)
    returns (sentPickups: seq<int>)
    requires pool.Valid() && Distinct(cars) && 0 <= carCount <= |cars| && |rolls| == MAX_TRACK_ITEMS
    requires CanDraw(CarValues(cars), carCount, race, tableMP, tableSP)
    modifies pool.activeItems, pool.itemBoxSpawns, cars, pool.playerEffects
    ensures Outcome(pool.activeItems[..], pool.itemBoxSpawns[..], CarValues(cars), pool.playerEffects.Value(), sentPickups) ==
      Collisions(old(pool.activeItems[..]), old(pool.itemBoxSpawns[..]), pool.itemBoxCount, old(CarValues(cars)),
                 old(pool.playerEffects.Value()), carCount, race, connected, scrollX, scrollY, rolls, tableMP, tableSP, rand)
  {
    sentPickups := CheckItemBoxCollisions(pool, cars, carCount, race, connected, tableMP, tableSP, rand);
    CheckAllProjectileCollisions(pool, cars, carCount, race, connected, scrollX, scrollY, rolls);
    CheckAllHazardCollisions(pool, cars, carCount, race, connected, scrollX, scrollY);
  }
}
