/**
 * The per-frame item update of gameplay/items/items_update.c: items
 * received from other players, lifetimes, shooter immunity, projectile
 * motion and wall hits, homing (lock-on, leash, waypoint following and a
 * rate-limited turn) and item-box respawn timers.
 *
 * The functions below describe one slot or one box; the methods walk the
 * pool in place the way the C loops do and are proved equal to them.
 */
module ItemUpdate {
  import opened FixedMath
  import opened GameTypes
  import opened ItemState
  import opened ItemSpawning
  import opened ItemNavigation
  import WallCollision
  import GameplayLogic

  /** A time-immune item loses its immunity this far from its shooter. */
  const IMMUNITY_MIN_DISTANCE: int := 50 * FIXED_ONE
  /** Lap immunity ends only after more than this many waypoints. */
  const LAP_MIN_WAYPOINTS: int := 100
  /** A homing item locks onto a car this close. */
  const LOCK_ON_RADIUS: int := 100 * FIXED_ONE
  /** A locked target farther than this is let go. */
  const LOCK_LEASH: int := 150 * FIXED_ONE

  predicate IsProjectile(kind: int)
  {
    kind == ITEM_GREEN_SHELL || kind == ITEM_RED_SHELL || kind == ITEM_MISSILE
  }

  // ---------------------------------------------------------------------
  // Lifetime and immunity
  // ---------------------------------------------------------------------

  /** The lifetime countdown: a positive lifetime goes down and the item ends at 0. */
  function LifetimeTick(it: TrackItem): TrackItem
  {
    if it.lifetimeTicks > 0 then
      it.(lifetimeTicks := it.lifetimeTicks - 1, active := if it.lifetimeTicks - 1 <= 0 then false else it.active)
    else it
  }

  /** The shooter's position, when the shooter index names a car of the race. */
  function ShooterPosition(it: TrackItem, carCount: int, positions: seq<Vec2>): (p: Option<Vec2>)
    requires carCount <= |positions|
    ensures p.Some? <==> 0 <= it.shooterCarIndex < carCount
    ensures p.Some? ==> p.value == positions[it.shooterCarIndex]
  {
    if 0 <= it.shooterCarIndex < carCount then Some(positions[it.shooterCarIndex]) else None
  }

  /** The lap condition of the single-player immunity. */
  predicate LapCompleted(it: TrackItem)
  {
    !it.hasCompletedLap && it.waypointsVisited > 0 &&
    Abs(it.currentWaypoint - it.startingWaypoint) <= WAYPOINT_LAP_THRESHOLD &&
    it.waypointsVisited > LAP_MIN_WAYPOINTS
  }

  /** The immunity timer's update (time-based when positive, lap-based when -1). */
  function ImmunityTick(it: TrackItem, shooterPos: Option<Vec2>): TrackItem
  {
    if it.immunityTimer > 0 then
      var t := it.(immunityTimer := it.immunityTimer - 1);
      if shooterPos.Some? && Distance(t.position, shooterPos.value) >= IMMUNITY_MIN_DISTANCE then t.(immunityTimer := 0) else t
    else if it.immunityTimer == -1 && LapCompleted(it) then
      it.(hasCompletedLap := true, immunityTimer := 0)
    else it
  }

  /**
   * A positive timer goes down by one and is cleared early once the item is
   * IMMUNITY_MIN_DISTANCE from its shooter; the -1 timer is cleared, and the
   * lap recorded, exactly when the item has visited more than 100 waypoints
   * and is back within WAYPOINT_LAP_THRESHOLD of its start; any other timer
   * stays. Nothing but the timer and the lap flag changes.
   */
  lemma ImmunityTickCases(it: TrackItem, shooterPos: Option<Vec2>)
    ensures var r := ImmunityTick(it, shooterPos);
      r == it.(immunityTimer := r.immunityTimer, hasCompletedLap := r.hasCompletedLap) &&
      (it.immunityTimer > 0 ==>
        r.hasCompletedLap == it.hasCompletedLap && 0 <= r.immunityTimer < it.immunityTimer &&
        (r.immunityTimer != 0 ==> r.immunityTimer == it.immunityTimer - 1) &&
        (shooterPos.Some? && Distance(it.position, shooterPos.value) >= IMMUNITY_MIN_DISTANCE ==> r.immunityTimer == 0)) &&
      (it.immunityTimer == -1 ==>
        (r.immunityTimer == 0 <==> LapCompleted(it)) &&
        (LapCompleted(it) ==> r.hasCompletedLap) &&
        (!LapCompleted(it) ==> r == it)) &&
      (it.immunityTimer == 0 || it.immunityTimer < -1 ==> r == it)
  {
  }

  // ---------------------------------------------------------------------
  // Projectile motion
  // ---------------------------------------------------------------------

  /** getQuadrantFromPos: the same 3 x 3 grid the cars use, on the pixel position. */
  function ItemQuadrant(pos: Vec2): (q: int)
    ensures 0 <= q <= 8
  {
    GameplayLogic.CarQuadrant(FixedToInt(pos.x), FixedToInt(pos.y))
  }

  /** Whether an item of the given hitbox width at pos overlaps a wall of its quadrant. */
  predicate HitsWall(pos: Vec2, hitboxWidth: int)
  {
    WallCollision.Colliding(FixedToInt(pos.x), FixedToInt(pos.y), TruncDiv(hitboxWidth, 2), ItemQuadrant(pos))
  }

  /** updateProjectile: one step along the heading at the item's speed; a wall hit despawns it. */
  function ProjectileMove(it: TrackItem): TrackItem
  {
    var p := Add(it.position, Scale(FromAngle(it.angle512), it.speed));
    it.(position := p, active := if HitsWall(p, it.hitboxWidth) then false else it.active)
  }

  /** updateProjectile. */
  method UpdateProjectile(it: TrackItem) returns (r: TrackItem)
    ensures r == ProjectileMove(it)
  {
    var velocity := FromAngle(it.angle512);
    velocity := Scale(velocity, it.speed);
    r := it.(position := Add(it.position, velocity));
    var x := FixedToInt(r.position.x);
    var y := FixedToInt(r.position.y);
    var quad := ItemQuadrant(r.position);
    var hit := WallCollision.CheckCollision(x, y, TruncDiv(r.hitboxWidth, 2), quad);
    if hit {
      r := r.(active := false);
    }
  }

  // ---------------------------------------------------------------------
  // Homing
  // ---------------------------------------------------------------------

  /** The signed turn from one heading to another, the short way round: in (-256, 256]. */
  function ShortestTurn(from: int, to: int): (d: int)
    ensures -ANGLE_HALF < d <= ANGLE_HALF
    ensures (to - from - d) % ANGLE_FULL == 0
  {
    var w := Wrap(to - from);
    if w > ANGLE_HALF then w - ANGLE_FULL else w
  }

  /** The per-tick turn limit. */
  function ClampTurn(d: int): (c: int)
    ensures -HOMING_TURN_RATE <= c <= HOMING_TURN_RATE
    ensures -HOMING_TURN_RATE <= d <= HOMING_TURN_RATE ==> c == d
    ensures d > HOMING_TURN_RATE ==> c == HOMING_TURN_RATE
    ensures d < -HOMING_TURN_RATE ==> c == -HOMING_TURN_RATE
  {
    if d > HOMING_TURN_RATE then HOMING_TURN_RATE
    else if d < -HOMING_TURN_RATE then -HOMING_TURN_RATE
    else d
  }

  /** The smooth turn at the end of updateHoming. */
  function TurnToward(angle: int, targetAngle: int): int
  {
    Wrap(angle + ClampTurn(ShortestTurn(angle, targetAngle)))
  }

  /** Headings that differ by a multiple of a full turn wrap to the same value. */
  lemma {:induction false} WrapCongruent(a: int, b: int)
    requires (a - b) % ANGLE_FULL == 0
    ensures Wrap(a) == Wrap(b)
  {
    var k := (a - b) / ANGLE_FULL;
    assert a == b + ANGLE_FULL * k;
  }

  /** Only one turn in (-256, 256] links two headings. */
  lemma {:induction false} ShortestTurnIsUnique(from: int, to: int, d: int)
    requires -ANGLE_HALF < d <= ANGLE_HALF && (to - from - d) % ANGLE_FULL == 0
    ensures d == ShortestTurn(from, to)
  {
    var s := ShortestTurn(from, to);
    var k1 := (to - from - d) / ANGLE_FULL;
    var k2 := (to - from - s) / ANGLE_FULL;
    assert to - from == d + ANGLE_FULL * k1;
    assert to - from == s + ANGLE_FULL * k2;
    assert s - d == ANGLE_FULL * (k1 - k2);
  }

  /**
   * The heading stays in [0, 512) and turns the short way toward the
   * target by at most HOMING_TURN_RATE; within that rate it lands on the
   * target heading.
   */
  lemma {:induction false} TurnTowardIsClampedShortestTurn(angle: int, targetAngle: int)
    ensures 0 <= TurnToward(angle, targetAngle) < ANGLE_FULL
    ensures ShortestTurn(angle, TurnToward(angle, targetAngle)) == ClampTurn(ShortestTurn(angle, targetAngle))
    ensures Abs(ShortestTurn(angle, TurnToward(angle, targetAngle))) <= HOMING_TURN_RATE
    ensures Abs(ShortestTurn(angle, targetAngle)) <= HOMING_TURN_RATE ==> TurnToward(angle, targetAngle) == Wrap(targetAngle)
  {
    var d := ShortestTurn(angle, targetAngle);
    var c := ClampTurn(d);
    var r := TurnToward(angle, targetAngle);
    assert (angle + c - r) % ANGLE_FULL == 0;
    assert (r - angle - c) % ANGLE_FULL == 0 by {
      var k := (angle + c - r) / ANGLE_FULL;
      assert r - angle - c == ANGLE_FULL * -k;
    }
    ShortestTurnIsUnique(angle, r, c);
    if Abs(d) <= HOMING_TURN_RATE {
      WrapCongruent(angle + c, targetAngle);
    }
  }

  /** The cars a homing item may lock onto this tick. */
  predicate Lockable(it: TrackItem, positions: seq<Vec2>, isMultiplayer: bool, i: int)
    requires 0 <= i < |positions|
  {
    !(isMultiplayer && i == it.shooterCarIndex) &&
    !(!isMultiplayer && it.immunityTimer != 0 && i == it.shooterCarIndex) &&
    Distance(it.position, positions[i]) <= LOCK_ON_RADIUS
  }

  /** The lock-on scan from car `from` on: the first lockable car, or -1. */
  function FirstLockable(it: TrackItem, positions: seq<Vec2>, carCount: int, isMultiplayer: bool, from: nat): (r: int)
    requires carCount <= |positions|
    ensures r == -1 || from <= r < carCount
    ensures r >= 0 ==>
              Lockable(it, positions, isMultiplayer, r) &&
              forall j | from <= j < r :: !Lockable(it, positions, isMultiplayer, j)
    ensures r == -1 ==> forall j | from <= j < carCount :: !Lockable(it, positions, isMultiplayer, j)
    decreases carCount - from
  {
    if from >= carCount then -1
    else if Lockable(it, positions, isMultiplayer, from) then from
    else FirstLockable(it, positions, carCount, isMultiplayer, from + 1)
  }

  /** The first part of updateHoming: drop the shooter in multiplayer, then scan when unlocked. */
  function HomingRetarget(it: TrackItem, positions: seq<Vec2>, carCount: int, isMultiplayer: bool): TrackItem
    requires carCount <= |positions|
  {
    var a := if isMultiplayer && it.targetCarIndex == it.shooterCarIndex then it.(targetCarIndex := INVALID_CAR_INDEX) else it;
    if a.targetCarIndex != INVALID_CAR_INDEX then a
    else
      var k := FirstLockable(a, positions, carCount, isMultiplayer, 0);
      if k >= 0 then a.(targetCarIndex := k, usePathFollowing := false) else a
  }

  /** The leash: a valid target is dropped if it is the shooter (multiplayer) or too far, else aimed at. */
  function HomingLeash(b: TrackItem, positions: seq<Vec2>, carCount: int, isMultiplayer: bool): (TrackItem, Option<Vec2>)
    requires carCount <= |positions|
  {
    if 0 <= b.targetCarIndex < carCount then
      if isMultiplayer && b.targetCarIndex == b.shooterCarIndex then
        (b.(targetCarIndex := INVALID_CAR_INDEX, usePathFollowing := true), None)
      else if Distance(b.position, positions[b.targetCarIndex]) > LOCK_LEASH then
        (b.(targetCarIndex := INVALID_CAR_INDEX, usePathFollowing := true), None)
      else (b.(usePathFollowing := false), Some(positions[b.targetCarIndex]))
    else (b, None)
  }

  /**
   * The aim: on the path, advance past a reached waypoint and turn toward
   * the current one; otherwise turn toward the locked car. When neither
   * applies the C reads an uninitialised local, modelled by stalePoint.
   */
  function HomingAim(c: TrackItem, locked: Option<Vec2>, m: Map, stalePoint: Vec2): TrackItem
  {
    if c.usePathFollowing || c.targetCarIndex == INVALID_CAR_INDEX then
      var wp := GetWaypointPosition(c.currentWaypoint, m);
      var d := if IsWaypointReached(c.position, wp) then
          c.(currentWaypoint := GetNextWaypoint(c.currentWaypoint, m), waypointsVisited := c.waypointsVisited + 1)
        else c;
      d.(angle512 := TurnToward(d.angle512, AngleOf(Sub(wp, d.position))))
    else
      var point := if locked.Some? then locked.value else stalePoint;
      c.(angle512 := TurnToward(c.angle512, AngleOf(Sub(point, c.position))))
  }

  /** updateHoming. */
  function HomingStep(it: TrackItem, positions: seq<Vec2>, carCount: int, isMultiplayer: bool, m: Map, stalePoint: Vec2): TrackItem
    requires carCount <= |positions|
  {
    var b := HomingRetarget(it, positions, carCount, isMultiplayer);
    var l := HomingLeash(b, positions, carCount, isMultiplayer);
    HomingAim(l.0, l.1, m, stalePoint)
  }

  /** The target stages change only the target and the path flag. */
  lemma HomingTargetStagesKeepTheRest(it: TrackItem, positions: seq<Vec2>, carCount: int, isMultiplayer: bool)
    requires carCount <= |positions|
    ensures var b := HomingRetarget(it, positions, carCount, isMultiplayer);
      var c := HomingLeash(b, positions, carCount, isMultiplayer).0;
      c == it.(targetCarIndex := c.targetCarIndex, usePathFollowing := c.usePathFollowing)
  {
  }

  /** The aim changes only the heading and the waypoint, by at most one step. */
  lemma {:induction false} HomingAimSteps(c: TrackItem, locked: Option<Vec2>, m: Map, stalePoint: Vec2)
    ensures var r := HomingAim(c, locked, m, stalePoint);
      r == c.(angle512 := r.angle512, currentWaypoint := r.currentWaypoint, waypointsVisited := r.waypointsVisited) &&
      0 <= r.angle512 < ANGLE_FULL &&
      Abs(ShortestTurn(c.angle512, r.angle512)) <= HOMING_TURN_RATE &&
      ((r.currentWaypoint == c.currentWaypoint && r.waypointsVisited == c.waypointsVisited) ||
       (r.currentWaypoint == GetNextWaypoint(c.currentWaypoint, m) && r.waypointsVisited == c.waypointsVisited + 1))
  {
    if c.usePathFollowing || c.targetCarIndex == INVALID_CAR_INDEX {
      var wp := GetWaypointPosition(c.currentWaypoint, m);
      TurnTowardIsClampedShortestTurn(c.angle512, AngleOf(Sub(wp, c.position)));
    } else {
      var point := if locked.Some? then locked.value else stalePoint;
      TurnTowardIsClampedShortestTurn(c.angle512, AngleOf(Sub(point, c.position)));
    }
  }

  /**
   * Homing only steers: the position, kind, speed, lifetime, shooter and
   * immunity are kept, the heading turns by at most HOMING_TURN_RATE the
   * short way, and the waypoint advances by at most one.
   */
  lemma HomingOnlySteers(it: TrackItem, positions: seq<Vec2>, carCount: int, isMultiplayer: bool, m: Map, stalePoint: Vec2)
    requires carCount <= |positions|
    ensures var r := HomingStep(it, positions, carCount, isMultiplayer, m, stalePoint);
      r == it.(targetCarIndex := r.targetCarIndex, usePathFollowing := r.usePathFollowing, angle512 := r.angle512,
               currentWaypoint := r.currentWaypoint, waypointsVisited := r.waypointsVisited) &&
      0 <= r.angle512 < ANGLE_FULL &&
      Abs(ShortestTurn(it.angle512, r.angle512)) <= HOMING_TURN_RATE &&
      ((r.currentWaypoint == it.currentWaypoint && r.waypointsVisited == it.waypointsVisited) ||
       (r.currentWaypoint == GetNextWaypoint(it.currentWaypoint, m) && r.waypointsVisited == it.waypointsVisited + 1))
  {
    var b := HomingRetarget(it, positions, carCount, isMultiplayer);
    var l := HomingLeash(b, positions, carCount, isMultiplayer);
    HomingTargetStagesKeepTheRest(it, positions, carCount, isMultiplayer);
    HomingAimSteps(l.0, l.1, m, stalePoint);
  }

  /**
   * In multiplayer a homing item never keeps or takes its shooter as a
   * target, and in any mode a car it stays locked onto is within the
   * 150-pixel leash and is chased directly rather than along the path.
   */
  lemma HomingTargetRules(it: TrackItem, positions: seq<Vec2>, carCount: int, isMultiplayer: bool, m: Map, stalePoint: Vec2)
    requires carCount <= |positions|
    ensures var r := HomingStep(it, positions, carCount, isMultiplayer, m, stalePoint);
      (isMultiplayer ==> r.targetCarIndex == INVALID_CAR_INDEX || r.targetCarIndex != it.shooterCarIndex) &&
      (0 <= r.targetCarIndex < carCount ==>
        Distance(it.position, positions[r.targetCarIndex]) <= LOCK_LEASH && !r.usePathFollowing)
  {
  }

  /**
   * An unlocked homing item that has a lockable car within 100 pixels locks
   * onto the first such car, leaves the path and turns toward that car.
   */
  lemma HomingLocksOntoFirstCarInRange(it: TrackItem, positions: seq<Vec2>, carCount: int, isMultiplayer: bool, m: Map, stalePoint: Vec2)
    requires carCount <= |positions|
    requires it.targetCarIndex == INVALID_CAR_INDEX
    requires FirstLockable(it, positions, carCount, isMultiplayer, 0) >= 0
    ensures var k := FirstLockable(it, positions, carCount, isMultiplayer, 0);
      var r := HomingStep(it, positions, carCount, isMultiplayer, m, stalePoint);
      r.targetCarIndex == k && !r.usePathFollowing &&
      r.angle512 == TurnToward(it.angle512, AngleOf(Sub(positions[k], it.position)))
  {
  }

  /** The lock-on scan of updateHoming: lock onto the first lockable car, if any. */
  method LockOnScan(a: TrackItem, positions: seq<Vec2>, carCount: int, isMultiplayer: bool) returns (r: TrackItem)
    requires carCount <= |positions|
    ensures var k := FirstLockable(a, positions, carCount, isMultiplayer, 0);
      r == if k >= 0 then a.(targetCarIndex := k, usePathFollowing := false) else a
  {
    r := a;
    var i := 0;
    while i < carCount
      invariant 0 <= i && (i <= carCount || i == 0)
      invariant FirstLockable(a, positions, carCount, isMultiplayer, 0) == FirstLockable(a, positions, carCount, isMultiplayer, i)
      decreases carCount - i
    {
      if isMultiplayer && i == a.shooterCarIndex {
        i := i + 1;
        continue;
      }
      if !isMultiplayer && a.immunityTimer != 0 && i == a.shooterCarIndex {
        i := i + 1;
        continue;
      }
      var dist := Distance(a.position, positions[i]);
      if dist <= LOCK_ON_RADIUS {
        r := a.(targetCarIndex := i, usePathFollowing := false);
        return;
      }
      i := i + 1;
    }
  }

  /** The leash check of updateHoming; targetPoint is the locked car's position, else unchanged. */
  method CheckLeash(b: TrackItem, positions: seq<Vec2>, carCount: int, isMultiplayer: bool, stalePoint: Vec2)
    returns (r: TrackItem, targetPoint: Vec2)
    requires carCount <= |positions|
    ensures var l := HomingLeash(b, positions, carCount, isMultiplayer);
      r == l.0 && targetPoint == if l.1.Some? then l.1.value else stalePoint
  {
    r, targetPoint := b, stalePoint;
    if 0 <= r.targetCarIndex < carCount {
      if isMultiplayer && r.targetCarIndex == r.shooterCarIndex {
        r := r.(targetCarIndex := INVALID_CAR_INDEX, usePathFollowing := true);
      } else {
        var distToTarget := Distance(r.position, positions[r.targetCarIndex]);
        if distToTarget > LOCK_LEASH {
          r := r.(targetCarIndex := INVALID_CAR_INDEX, usePathFollowing := true);
        } else {
          targetPoint := positions[r.targetCarIndex];
          r := r.(usePathFollowing := false);
        }
      }
    }
  }

  /** The smooth turn of updateHoming: the short way round, at most HOMING_TURN_RATE. */
  method TurnStep(angle: int, targetAngle: int) returns (newAngle: int)
    ensures newAngle == TurnToward(angle, targetAngle)
  {
    var angleDiff := Wrap(targetAngle - angle);
    if angleDiff > ANGLE_HALF {
      angleDiff := angleDiff - ANGLE_FULL;
    }
    if angleDiff > HOMING_TURN_RATE {
      angleDiff := HOMING_TURN_RATE;
    }
    if angleDiff < -HOMING_TURN_RATE {
      angleDiff := -HOMING_TURN_RATE;
    }
    newAngle := Wrap(angle + angleDiff);
  }

  /** The path following and smooth turn of updateHoming, toward targetPoint when off the path. */
  method Steer(c: TrackItem, targetPoint: Vec2, m: Map) returns (r: TrackItem)
    ensures r == HomingAim(c, Some(targetPoint), m, targetPoint)
  {
    r := c;
    var aimPoint := targetPoint;
    if r.usePathFollowing || r.targetCarIndex == INVALID_CAR_INDEX {
      var waypointPos := GetWaypointPosition(r.currentWaypoint, m);
      if IsWaypointReached(r.position, waypointPos) {
        r := r.(currentWaypoint := GetNextWaypoint(r.currentWaypoint, m), waypointsVisited := r.waypointsVisited + 1);
      }
      aimPoint := waypointPos;
    }
    var targetAngle := ToAngle(Sub(aimPoint, r.position));
    var newAngle := TurnStep(r.angle512, targetAngle);
    r := r.(angle512 := newAngle);
  }

  /** Off the path the aim depends only on the point aimed at. */
  lemma AimDependsOnPoint(c: TrackItem, locked: Option<Vec2>, m: Map, stalePoint: Vec2)
    ensures var p := if locked.Some? then locked.value else stalePoint;
      HomingAim(c, locked, m, stalePoint) == HomingAim(c, Some(p), m, p)
  {
  }

  /** updateHoming, on the slot's value. */
  method UpdateHoming(it: TrackItem, positions: seq<Vec2>, carCount: int, isMultiplayer: bool, m: Map, stalePoint: Vec2)
    returns (r: TrackItem)
    requires carCount <= |positions|
    ensures r == HomingStep(it, positions, carCount, isMultiplayer, m, stalePoint)
  {
    r := it;
    if isMultiplayer && r.targetCarIndex == r.shooterCarIndex {
      r := r.(targetCarIndex := INVALID_CAR_INDEX);
    }
    if r.targetCarIndex == INVALID_CAR_INDEX {
      r := LockOnScan(r, positions, carCount, isMultiplayer);
    }
    assert r == HomingRetarget(it, positions, carCount, isMultiplayer);
    var targetPoint;
    ghost var l := HomingLeash(r, positions, carCount, isMultiplayer);
    r, targetPoint := CheckLeash(r, positions, carCount, isMultiplayer, stalePoint);
    AimDependsOnPoint(r, l.1, m, stalePoint);
    r := Steer(r, targetPoint, m);
  }

  // ---------------------------------------------------------------------
  // One slot, one frame
  // ---------------------------------------------------------------------

  /** The body of Items_Update's slot loop. */
  function ItemTick(it: TrackItem, race: RaceView, positions: seq<Vec2>, stalePoint: Vec2): TrackItem
    requires race.carCount <= |positions|
  {
    if !it.active then it
    else
      var a := LifetimeTick(it);
      if !a.active then a
      else
        var b := ImmunityTick(a, ShooterPosition(a, race.carCount, positions));
        var c := if IsProjectile(b.kind) then ProjectileMove(b) else b;
        if IsHoming(c.kind) then HomingStep(c, positions, race.carCount, race.gameMode == MultiPlayer, race.currentMap, stalePoint)
        else c
  }

  /**
   * Inactive slots are left alone and no slot is reactivated; a positive
   * lifetime goes down by one per frame and the item ends when it reaches
   * 0, while a non-positive lifetime never changes; kind, speed, hitbox and
   * shooter are kept; hazards neither move nor end other than by lifetime.
   */
  lemma ItemTickCases(it: TrackItem, race: RaceView, positions: seq<Vec2>, stalePoint: Vec2)
    requires race.carCount <= |positions|
    ensures var r := ItemTick(it, race, positions, stalePoint);
      (!it.active ==> r == it) &&
      (r.active ==> it.active) &&
      (it.active && it.lifetimeTicks > 0 ==> r.lifetimeTicks == it.lifetimeTicks - 1 && (r.lifetimeTicks <= 0 ==> !r.active)) &&
      (it.lifetimeTicks <= 0 ==> r.lifetimeTicks == it.lifetimeTicks) &&
      r.kind == it.kind && r.speed == it.speed && r.hitboxWidth == it.hitboxWidth &&
      r.shooterCarIndex == it.shooterCarIndex &&
      (!IsProjectile(it.kind) ==>
        r.position == it.position &&
        (r.active <==> it.active && (it.lifetimeTicks <= 0 || it.lifetimeTicks > 1)))
  {
    if it.active && LifetimeTick(it).active {
      var a := LifetimeTick(it);
      var b := ImmunityTick(a, ShooterPosition(a, race.carCount, positions));
      ImmunityTickCases(a, ShooterPosition(a, race.carCount, positions));
      var c := if IsProjectile(b.kind) then ProjectileMove(b) else b;
      if IsHoming(c.kind) {
        HomingOnlySteers(c, positions, race.carCount, race.gameMode == MultiPlayer, race.currentMap, stalePoint);
      }
    }
  }

  /** Consecutive frames, each with the cars' positions of that frame. */
  function ItemRun(it: TrackItem, race: RaceView, frames: seq<seq<Vec2>>, stalePoint: Vec2): TrackItem
    requires forall k | 0 <= k < |frames| :: race.carCount <= |frames[k]|
    decreases |frames|
  {
    if frames == [] then it
    else ItemRun(ItemTick(it, race, frames[0], stalePoint), race, frames[1..], stalePoint)
  }

  /** A slot that is inactive stays so. */
  lemma {:induction false} InactiveStaysInactive(it: TrackItem, race: RaceView, frames: seq<seq<Vec2>>, stalePoint: Vec2)
    requires forall k | 0 <= k < |frames| :: race.carCount <= |frames[k]|
    requires !it.active
    ensures ItemRun(it, race, frames, stalePoint) == it
    decreases |frames|
  {
    if frames != [] {
      InactiveStaysInactive(it, race, frames[1..], stalePoint);
    }
  }

  /** An item with a positive lifetime L is gone after at most L frames, whatever the cars do. */
  lemma {:induction false} ItemEndsWithinLifetime(it: TrackItem, race: RaceView, frames: seq<seq<Vec2>>, stalePoint: Vec2)
    requires forall k | 0 <= k < |frames| :: race.carCount <= |frames[k]|
    requires it.lifetimeTicks > 0 && |frames| >= it.lifetimeTicks
    ensures !ItemRun(it, race, frames, stalePoint).active
    decreases |frames|
  {
    var next := ItemTick(it, race, frames[0], stalePoint);
    ItemTickCases(it, race, frames[0], stalePoint);
    if !next.active {
      InactiveStaysInactive(next, race, frames[1..], stalePoint);
    } else {
      ItemEndsWithinLifetime(next, race, frames[1..], stalePoint);
    }
  }

  /**
   * A banana, oil slick or bomb with a positive lifetime L is on the track
   * for exactly L - 1 frames after this one.
   */
  lemma {:induction false} HazardLastsItsLifetime(it: TrackItem, race: RaceView, frames: seq<seq<Vec2>>, stalePoint: Vec2)
    requires forall k | 0 <= k < |frames| :: race.carCount <= |frames[k]|
    requires it.active && !IsProjectile(it.kind) && it.lifetimeTicks > 0
    ensures ItemRun(it, race, frames, stalePoint).active <==> |frames| < it.lifetimeTicks
    decreases |frames|
  {
    if frames != [] {
      var next := ItemTick(it, race, frames[0], stalePoint);
      ItemTickCases(it, race, frames[0], stalePoint);
      if !next.active {
        InactiveStaysInactive(next, race, frames[1..], stalePoint);
      } else {
        HazardLastsItsLifetime(next, race, frames[1..], stalePoint);
      }
    }
  }

  // ---------------------------------------------------------------------
  // Item boxes
  // ---------------------------------------------------------------------

  /** The respawn countdown of an inactive box. */
  function BoxTick(b: ItemBoxSpawn): ItemBoxSpawn
  {
    if !b.active && b.respawnTimer > 0 then
      b.(respawnTimer := b.respawnTimer - 1, active := b.respawnTimer - 1 <= 0)
    else b
  }

  function BoxTicks(b: ItemBoxSpawn, n: nat): ItemBoxSpawn
    decreases n
  {
    if n == 0 then b else BoxTicks(BoxTick(b), n - 1)
  }

  /** A taken box: inactive with the full respawn timer. */
  function TakenBox(b: ItemBoxSpawn): ItemBoxSpawn
  {
    b.(active := false, respawnTimer := ITEM_BOX_RESPAWN_TICKS)
  }

  /** An active box is untouched by the countdown. */
  lemma {:induction false} ActiveBoxStays(b: ItemBoxSpawn, n: nat)
    requires b.active
    ensures BoxTicks(b, n) == b
    decreases n
  {
    if n > 0 {
      ActiveBoxStays(b, n - 1);
    }
  }

  /** An inactive box with timer t > 0 is back exactly after t frames, where it was. */
  lemma {:induction false} BoxCountdown(b: ItemBoxSpawn, n: nat)
    requires !b.active && b.respawnTimer > 0
    ensures BoxTicks(b, n).active <==> n >= b.respawnTimer
    ensures BoxTicks(b, n).position == b.position
    decreases n
  {
    if n > 0 {
      var next := BoxTick(b);
      if next.active {
        ActiveBoxStays(next, n - 1);
      } else {
        BoxCountdown(next, n - 1);
      }
    }
  }

  /** A box that has been taken reappears exactly ITEM_BOX_RESPAWN_TICKS frames later, in place. */
  lemma BoxRespawnsAfterRespawnTicks(b: ItemBoxSpawn, n: nat)
    ensures BoxTicks(TakenBox(b), n).active <==> n >= ITEM_BOX_RESPAWN_TICKS
    ensures BoxTicks(TakenBox(b), n).position == b.position
  {
    BoxCountdown(TakenBox(b), n);
  }

  /** Items_DeactivateBox on the table: indices outside [0, count) are ignored. */
  function DeactivatedAt(boxes: seq<ItemBoxSpawn>, count: int, boxIndex: int): (r: seq<ItemBoxSpawn>)
    requires 0 <= count <= |boxes|
    ensures |r| == |boxes|
    ensures forall i | 0 <= i < |boxes| && i != boxIndex :: r[i] == boxes[i]
    ensures 0 <= boxIndex < count ==>
      !r[boxIndex].active && r[boxIndex].respawnTimer == ITEM_BOX_RESPAWN_TICKS && r[boxIndex].position == boxes[boxIndex].position
    ensures !(0 <= boxIndex < count) ==> r == boxes
  {
    if boxIndex < 0 || boxIndex >= count then boxes
    else boxes[boxIndex := TakenBox(boxes[boxIndex])]
  }

  /** Items_DeactivateBox. */
  method DeactivateBox(pool: ItemPool, boxIndex: int)
    requires pool.Valid()
    modifies pool.itemBoxSpawns
    ensures pool.itemBoxSpawns[..] == DeactivatedAt(old(pool.itemBoxSpawns[..]), pool.itemBoxCount, boxIndex)
  {
    if boxIndex < 0 || boxIndex >= pool.itemBoxCount {
      return;
    }
    pool.itemBoxSpawns[boxIndex] := pool.itemBoxSpawns[boxIndex].(active := false, respawnTimer := ITEM_BOX_RESPAWN_TICKS);
  }

  // ---------------------------------------------------------------------
  // Network input
  // ---------------------------------------------------------------------

  /** One received placement: a moving item is fired, a still one is placed; neither is sent back. */
  function ReceiveOne(items: seq<TrackItem>, p: Placement, race: RaceView, bananaLifetimeSeconds: int): (r: seq<TrackItem>)
    ensures |r| == |items|
  {
    if p.speed > 0 then
      Spawn(items, ProjectileItem(SlotToFill(items), p.kind, p.position, p.angle512, p.speed, INVALID_CAR_INDEX, p.playerIndex, race))
    else
      Spawn(items, HazardItem(SlotToFill(items), p.kind, p.position, bananaLifetimeSeconds))
  }

  /** The pool after the received placements, in order. */
  function Received(items: seq<TrackItem>, ps: seq<Placement>, race: RaceView, bananaLifetimeSeconds: int): (r: seq<TrackItem>)
    ensures |r| == |items|
    decreases |ps|
  {
    if ps == [] then items
    else ReceiveOne(Received(items, ps[..|ps| - 1], race, bananaLifetimeSeconds), ps[|ps| - 1], race, bananaLifetimeSeconds)
  }

  /** Each received placement takes a free slot while there is one; the rest are dropped. */
  lemma {:induction false} ReceivedFillsFreeSlots(items: seq<TrackItem>, ps: seq<Placement>, race: RaceView, bananaLifetimeSeconds: int)
    ensures var n := ActiveCount(items) + |ps|;
      ActiveCount(Received(items, ps, race, bananaLifetimeSeconds)) == if n < |items| then n else |items|
    decreases |ps|
  {
    if ps != [] {
      var before := Received(items, ps[..|ps| - 1], race, bananaLifetimeSeconds);
      ReceivedFillsFreeSlots(items, ps[..|ps| - 1], race, bananaLifetimeSeconds);
      FullPoolHasNoFreeSlot(before);
    }
  }

  /** The box table after the received pickups, in order. */
  function PickedUp(boxes: seq<ItemBoxSpawn>, count: int, pickups: seq<int>): (r: seq<ItemBoxSpawn>)
    requires 0 <= count <= |boxes|
    ensures |r| == |boxes|
    decreases |pickups|
  {
    if pickups == [] then boxes
    else DeactivatedAt(PickedUp(boxes, count, pickups[..|pickups| - 1]), count, pickups[|pickups| - 1])
  }

  /** Received pickups take exactly the boxes in use they name, and leave the rest alone. */
  lemma {:induction false} PickedUpBoxes(boxes: seq<ItemBoxSpawn>, count: int, pickups: seq<int>)
    requires 0 <= count <= |boxes|
    ensures var r := PickedUp(boxes, count, pickups);
      forall i | 0 <= i < |boxes| ::
        if 0 <= i < count && i in pickups then r[i] == TakenBox(boxes[i]) else r[i] == boxes[i]
    decreases |pickups|
  {
    if pickups != [] {
      var front := pickups[..|pickups| - 1];
      PickedUpBoxes(boxes, count, front);
      forall i | 0 <= i < |boxes|
        ensures i in pickups <==> i in front || i == pickups[|pickups| - 1]
      {
        assert pickups == front + [pickups[|pickups| - 1]];
      }
    }
  }

  /** The multiplayer receive loop for item placements. */
  method ReceivePlacements(pool: ItemPool, race: RaceView, ps: seq<Placement>, bananaLifetimeSeconds: int)
    requires pool.Valid()
    modifies pool.activeItems
    ensures pool.activeItems[..] == Received(old(pool.activeItems[..]), ps, race, bananaLifetimeSeconds)
  {
    var i := 0;
    while i < |ps|
      invariant 0 <= i <= |ps|
      invariant pool.activeItems[..] == Received(old(pool.activeItems[..]), ps[..i], race, bananaLifetimeSeconds)
    {
      var p := ps[i];
      var sent;
      if p.speed > 0 {
        sent := FireProjectileInternal(pool, p.kind, p.position, p.angle512, p.speed, INVALID_CAR_INDEX, false, p.playerIndex, race);
      } else {
        sent := PlaceHazardInternal(pool, p.kind, p.position, false, race, bananaLifetimeSeconds);
      }
      assert ps[..i + 1][..i] == ps[..i];
      i := i + 1;
    }
    assert ps[..i] == ps;
  }

  /** The multiplayer receive loop for item-box pickups. */
  method ReceiveBoxPickups(pool: ItemPool, pickups: seq<int>)
    requires pool.Valid()
    modifies pool.itemBoxSpawns
    ensures pool.itemBoxSpawns[..] == PickedUp(old(pool.itemBoxSpawns[..]), pool.itemBoxCount, pickups)
  {
    var i := 0;
    while i < |pickups|
      invariant 0 <= i <= |pickups|
      invariant pool.itemBoxSpawns[..] == PickedUp(old(pool.itemBoxSpawns[..]), pool.itemBoxCount, pickups[..i])
    {
      DeactivateBox(pool, pickups[i]);
      assert pickups[..i + 1][..i] == pickups[..i];
      i := i + 1;
    }
    assert pickups[..i] == pickups;
  }

  // ---------------------------------------------------------------------
  // Items_Update
  // ---------------------------------------------------------------------

  /** The immunity part of the slot loop. */
  method UpdateImmunity(it: TrackItem, race: RaceView, positions: seq<Vec2>) returns (r: TrackItem)
    requires race.carCount <= |positions|
    ensures r == ImmunityTick(it, ShooterPosition(it, race.carCount, positions))
  {
    r := it;
    if r.immunityTimer != 0 {
      if r.immunityTimer > 0 {
        r := r.(immunityTimer := r.immunityTimer - 1);
        if r.shooterCarIndex >= 0 && r.shooterCarIndex < race.carCount {
          var distFromShooter := Distance(r.position, positions[r.shooterCarIndex]);
          if distFromShooter >= IMMUNITY_MIN_DISTANCE {
            r := r.(immunityTimer := 0);
          }
        }
      } else if r.immunityTimer == -1 {
        if !r.hasCompletedLap && r.waypointsVisited > 0 {
          var waypointDiff := Abs(r.currentWaypoint - r.startingWaypoint);
          if waypointDiff <= WAYPOINT_LAP_THRESHOLD && r.waypointsVisited > LAP_MIN_WAYPOINTS {
            r := r.(hasCompletedLap := true, immunityTimer := 0);
          }
        }
      }
    }
  }

  /** One pass of the slot loop on an active slot. */
  method UpdateActiveItem(it: TrackItem, race: RaceView, positions: seq<Vec2>, stalePoint: Vec2) returns (r: TrackItem)
    requires race.carCount <= |positions| && it.active
    ensures r == ItemTick(it, race, positions, stalePoint)
  {
    r := it;
    if r.lifetimeTicks > 0 {
      r := r.(lifetimeTicks := r.lifetimeTicks - 1);
      if r.lifetimeTicks <= 0 {
        r := r.(active := false);
        return;
      }
    }
    assert r == LifetimeTick(it) && r.active;
    r := UpdateImmunity(r, race, positions);
    ghost var b := r;
    if r.kind == ITEM_GREEN_SHELL || r.kind == ITEM_RED_SHELL || r.kind == ITEM_MISSILE {
      r := UpdateProjectile(r);
    }
    assert r == if IsProjectile(b.kind) then ProjectileMove(b) else b;
    if r.kind == ITEM_RED_SHELL || r.kind == ITEM_MISSILE {
      r := UpdateHoming(r, positions, race.carCount, race.gameMode == MultiPlayer, race.currentMap, stalePoint);
    }
  }

  /** The slot loop of Items_Update. */
  method UpdateTrackItems(pool: ItemPool, race: RaceView, positions: seq<Vec2>, stalePoint: Vec2)
    requires pool.Valid() && race.carCount <= |positions|
    modifies pool.activeItems
    ensures forall i | 0 <= i < pool.activeItems.Length ::
      pool.activeItems[i] == ItemTick(old(pool.activeItems[i]), race, positions, stalePoint)
  {
    for i := 0 to MAX_TRACK_ITEMS
      invariant forall k | 0 <= k < i :: pool.activeItems[k] == ItemTick(old(pool.activeItems[k]), race, positions, stalePoint)
      invariant forall k | i <= k < MAX_TRACK_ITEMS :: pool.activeItems[k] == old(pool.activeItems[k])
    {
      if !pool.activeItems[i].active {
        continue;
      }
      var item := UpdateActiveItem(pool.activeItems[i], race, positions, stalePoint);
      pool.activeItems[i] := item;
    }
  }

  /** The respawn loop of Items_Update over the boxes in use. */
  method UpdateBoxRespawns(pool: ItemPool)
    requires pool.Valid()
    modifies pool.itemBoxSpawns
    ensures forall i | 0 <= i < pool.itemBoxSpawns.Length ::
      pool.itemBoxSpawns[i] == if i < pool.itemBoxCount then BoxTick(old(pool.itemBoxSpawns[i])) else old(pool.itemBoxSpawns[i])
  {
    for i := 0 to pool.itemBoxCount
      invariant forall k | 0 <= k < i :: pool.itemBoxSpawns[k] == BoxTick(old(pool.itemBoxSpawns[k]))
      invariant forall k | i <= k < pool.itemBoxSpawns.Length :: pool.itemBoxSpawns[k] == old(pool.itemBoxSpawns[k])
    {
      if !pool.itemBoxSpawns[i].active && pool.itemBoxSpawns[i].respawnTimer > 0 {
        var box := pool.itemBoxSpawns[i].(respawnTimer := pool.itemBoxSpawns[i].respawnTimer - 1);
        if box.respawnTimer <= 0 {
          box := box.(active := true);
        }
        pool.itemBoxSpawns[i] := box;
      }
    }
  }

  /**
   * Items_Update. In multiplayer the placements and pickups received from
   * the network (given in arrival order) are applied first; then every
   * slot takes one ItemTick and every box in use one BoxTick.
   */
  method Update(pool: ItemPool, race: RaceView, positions: seq<Vec2>, placements: seq<Placement>, pickups: seq<int>,
                bananaLifetimeSeconds: int, stalePoint: Vec2)
    requires pool.Valid() && race.carCount <= |positions|
    modifies pool.activeItems, pool.itemBoxSpawns
    ensures var received :=
        if race.gameMode == MultiPlayer then Received(old(pool.activeItems[..]), placements, race, bananaLifetimeSeconds)
        else old(pool.activeItems[..]);
      forall i | 0 <= i < MAX_TRACK_ITEMS :: pool.activeItems[i] == ItemTick(received[i], race, positions, stalePoint)
    ensures var picked :=
        if race.gameMode == MultiPlayer then PickedUp(old(pool.itemBoxSpawns[..]), pool.itemBoxCount, pickups)
        else old(pool.itemBoxSpawns[..]);
      forall i | 0 <= i < MAX_ITEM_BOX_SPAWNS ::
        pool.itemBoxSpawns[i] == if i < pool.itemBoxCount then BoxTick(picked[i]) else picked[i]
  {
    if race.gameMode == MultiPlayer {
      ReceivePlacements(pool, race, placements, bananaLifetimeSeconds);
      ReceiveBoxPickups(pool, pickups);
    }
    ghost var received := pool.activeItems[..];
    ghost var picked := pool.itemBoxSpawns[..];
    UpdateTrackItems(pool, race, positions, stalePoint);
    UpdateBoxRespawns(pool);
    assert forall i | 0 <= i < MAX_TRACK_ITEMS :: pool.activeItems[i] == ItemTick(received[i], race, positions, stalePoint);
  }
}
