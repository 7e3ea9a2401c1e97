/**
 * The computer-driven karts (BotAI.c): per-bot bookkeeping in the static
 * botStates table, the waypoint path they follow, and the pure pieces of
 * their steering decisions. The C keeps the table and the path as module
 * statics; here they are the fields of a Bots object.
 */
module BotAI {
  import opened FixedMath
  import opened GameTypes
  import opened MinScan
  import opened CarPhysics
  import GameplayLogic

  const MAX_WAYPOINTS: int := 96
  const LOOKAHEAD_DISTANCE: int := IntToFixed(80)
  const WAYPOINT_REACH_THRESHOLD: int := IntToFixed(30)
  const MISTAKE_INTERVAL_BASE: int := 200

  /** The starting "best" squared distance of the checkpoint search. */
  const CHECKPOINT_FAR: int := IntToFixed(10000)

  /** Consecutive corner angles closer than this count as straight. */
  const STRAIGHT_ANGLE_LIMIT: int := 30

  /** The timer value above which avoidance fully overrides the racing line. */
  const AVOIDANCE_BLEND_FRAMES: int := 15

  datatype SkillLevel = SkillEasy | SkillMedium | SkillHard

  /** BotPersonality: Q16.8 percentages (0..256) plus a delay and a tier. */
  datatype Personality = Personality(
    aggression: int, consistency: int, itemPriority: int, reactionDelay: int, skillLevel: SkillLevel)

  /** BotState: every field of the per-bot runtime record. */
  datatype BotState = BotState(
    targetWaypoint: int, nextWaypoint: int, targetPosition: Vec2,
    mistakeTimer: int, correctionTimer: int, stuckTimer: int,
    isOvertaking: bool, overtakeTarget: Vec2,
    nearestHazardPos: Vec2, hazardAvoidanceTimer: int,
    targetItemBoxPos: Vec2, seekingItemBox: bool,
    itemUsageTimer: int, stuckStillFrames: int, lastPos: Vec2, lastPosInitialized: bool,
    wallBounceCount: int, wallBounceCooldown: int,
    personality: Personality, basePersonality: Personality)

  datatype Waypoint = Waypoint(position: Vec2, targetSpeed: int, cornerAngle512: int, isCheckpoint: bool)

  /** A zero-initialised C static of each record type. */
  const ZERO_PERSONALITY: Personality := Personality(0, 0, 0, 0, SkillEasy)
  const ZERO_STATE: BotState :=
    BotState(0, 0, Zero(), 0, 0, 0, false, Zero(), Zero(), 0, Zero(), false, 0, 0, Zero(), false, 0, 0,
             ZERO_PERSONALITY, ZERO_PERSONALITY)
  const ZERO_WAYPOINT: Waypoint := Waypoint(Zero(), 0, 0, false)

  /** The state BotAI_Reset leaves behind: race-local state cleared, base personality restored. */
  function ResetState(s: BotState): (r: BotState)
    ensures r.personality == r.basePersonality == s.basePersonality
    ensures r.wallBounceCount == s.wallBounceCount && r.wallBounceCooldown == s.wallBounceCooldown
    ensures r.targetWaypoint == 0 && r.nextWaypoint == 1 && r.mistakeTimer == MISTAKE_INTERVAL_BASE
  {
    s.(targetWaypoint := 0, nextWaypoint := 1, targetPosition := Zero(),
       mistakeTimer := MISTAKE_INTERVAL_BASE, correctionTimer := 0, stuckTimer := 0,
       isOvertaking := false, overtakeTarget := Zero(), nearestHazardPos := Zero(),
       hazardAvoidanceTimer := 0, targetItemBoxPos := Zero(), seekingItemBox := false,
       itemUsageTimer := 0, stuckStillFrames := 0, lastPos := Zero(), lastPosInitialized := false,
       personality := s.basePersonality)
  }

  /**
   * A reset forgets everything but the base personality and the wall-bounce
   * counters: two states reset to the same state exactly when those agree,
   * and resetting twice is resetting once.
   */
  lemma ResetForgetsRaceState(s: BotState, t: BotState)
    ensures ResetState(s) == ResetState(t) <==>
      s.basePersonality == t.basePersonality &&
      s.wallBounceCount == t.wallBounceCount && s.wallBounceCooldown == t.wallBounceCooldown
    ensures ResetState(ResetState(s)) == ResetState(s)
  {
    if ResetState(s) == ResetState(t) {
      assert ResetState(s).basePersonality == ResetState(t).basePersonality;
    }
  }

  /** After BotAI_SetPersonality the next reset keeps the personality that was set. */
  lemma ResetKeepsSetPersonality(s: BotState, p: Personality)
    ensures ResetState(s.(basePersonality := p, personality := p)).personality == p
  {
  }

  /** applyPositionTactics: leaders hold items back, the back of the pack attacks. */
  function ApplyPositionTactics(rank: int, base: Personality): (adjusted: Personality)
    ensures adjusted.consistency == base.consistency && adjusted.reactionDelay == base.reactionDelay
    ensures adjusted.skillLevel == base.skillLevel
  {
    if rank <= 2 then
      base.(itemPriority := TruncDiv(base.itemPriority, 2))
    else if rank >= 6 then
      var doubleAggression := base.aggression * 2;
      base.(aggression := if doubleAggression > FIXED_ONE then FIXED_ONE else doubleAggression,
            itemPriority := FIXED_ONE)
    else
      base
  }

  /**
   * The three rank bands: ranks up to 2 halve the item priority, ranks from
   * 6 double the aggression up to 100% and make items top priority, the
   * middle of the pack keeps the base personality.
   */
  lemma TacticsByRank(rank: int, base: Personality)
    ensures var a := ApplyPositionTactics(rank, base);
      (rank <= 2 ==> a == base.(itemPriority := TruncDiv(base.itemPriority, 2))) &&
      (rank >= 6 ==> a.itemPriority == FIXED_ONE &&
                     a.aggression == (if 2 * base.aggression > FIXED_ONE then FIXED_ONE else 2 * base.aggression) &&
                     a.consistency == base.consistency) &&
      (2 < rank < 6 ==> a == base)
  {
  }

  /** Percentages in 0..100% stay in 0..100% whatever the rank. */
  lemma TacticsKeepPercentages(rank: int, base: Personality)
    requires 0 <= base.aggression <= FIXED_ONE && 0 <= base.itemPriority <= FIXED_ONE
    ensures var a := ApplyPositionTactics(rank, base);
      0 <= a.aggression <= FIXED_ONE && 0 <= a.itemPriority <= FIXED_ONE &&
      a.aggression >= base.aggression
  {
  }

  /** The avoidance weight of a fading timer: timer / 15 in Q16.8. */
  function AvoidWeight(timer: int): (w: int)
    requires 0 < timer <= AVOIDANCE_BLEND_FRAMES
    ensures w == timer * FIXED_ONE / AVOIDANCE_BLEND_FRAMES
    ensures 0 < w <= FIXED_ONE
  {
    FixedDiv(IntToFixed(timer), IntToFixed(AVOIDANCE_BLEND_FRAMES))
  }

  /** One coordinate of the weighted blend. */
  function BlendCoord(avoid: int, race: int, w: int): int
  {
    FixedMul(avoid, w) + FixedMul(race, FIXED_ONE - w)
  }

  /** blendAvoidanceWithRacingLine: full avoidance, a fading blend, or the racing line. */
  function Blend(racingTarget: Vec2, avoidanceTarget: Vec2, avoidanceTimer: int): (r: Vec2)
    ensures avoidanceTimer > AVOIDANCE_BLEND_FRAMES ==> r == avoidanceTarget
    ensures avoidanceTimer <= 0 ==> r == racingTarget
  {
    if avoidanceTimer > AVOIDANCE_BLEND_FRAMES then avoidanceTarget
    else if avoidanceTimer > 0 then
      var w := AvoidWeight(avoidanceTimer);
      Vec2(BlendCoord(avoidanceTarget.x, racingTarget.x, w), BlendCoord(avoidanceTarget.y, racingTarget.y, w))
    else racingTarget
  }

  function Min(a: int, b: int): int { if a < b then a else b }
  function Max(a: int, b: int): int { if a < b then b else a }

  /** Two floored shifts lose less than one unit against the shift of the sum. */
  lemma FloorSum(x: int, y: int)
    ensures x / FIXED_ONE + y / FIXED_ONE <= (x + y) / FIXED_ONE <= x / FIXED_ONE + y / FIXED_ONE + 1
  {
  }

  /** A weighted coordinate lies between its two ends, one unit below at worst. */
  lemma {:induction false} BlendCoordBetween(a: int, r: int, w: int)
    requires 0 <= w <= FIXED_ONE
    ensures Min(a, r) - 1 <= BlendCoord(a, r, w) <= Max(a, r)
  {
    var m, big := Min(a, r), Max(a, r);
    var x, y := a * w, r * (FIXED_ONE - w);
    assert (a - m) * w >= 0 && (r - m) * (FIXED_ONE - w) >= 0;
    assert (big - a) * w >= 0 && (big - r) * (FIXED_ONE - w) >= 0;
    assert m * w + m * (FIXED_ONE - w) == FIXED_ONE * m;
    assert big * w + big * (FIXED_ONE - w) == FIXED_ONE * big;
    assert FIXED_ONE * m <= x + y <= FIXED_ONE * big;
    FloorSum(x, y);
  }

  /**
   * While the timer runs down from 15 the blended target lies in the box
   * spanned by the racing and avoidance targets (one unit short on the low
   * side from the two floored products), and at 15 it is the avoidance
   * target itself.
   */
  lemma BlendStaysBetween(racingTarget: Vec2, avoidanceTarget: Vec2, avoidanceTimer: int)
    requires 0 < avoidanceTimer <= AVOIDANCE_BLEND_FRAMES
    ensures var b := Blend(racingTarget, avoidanceTarget, avoidanceTimer);
      Min(racingTarget.x, avoidanceTarget.x) - 1 <= b.x <= Max(racingTarget.x, avoidanceTarget.x) &&
      Min(racingTarget.y, avoidanceTarget.y) - 1 <= b.y <= Max(racingTarget.y, avoidanceTarget.y)
    ensures avoidanceTimer == AVOIDANCE_BLEND_FRAMES ==>
      Blend(racingTarget, avoidanceTarget, avoidanceTimer) == avoidanceTarget
  {
    var w := AvoidWeight(avoidanceTimer);
    BlendCoordBetween(avoidanceTarget.x, racingTarget.x, w);
    BlendCoordBetween(avoidanceTarget.y, racingTarget.y, w);
  }

  /** The shortest signed rotation from current to desired, in (-256, 256]. */
  function ShortestDiff(desired: int, current: int): (d: int)
    ensures -ANGLE_HALF < d <= ANGLE_HALF
    ensures (desired - current - d) % ANGLE_FULL == 0
  {
    var diff := Wrap(desired - current);
    if diff > ANGLE_HALF then diff - ANGLE_FULL else diff
  }

  /** The turn executeSteeringControl asks of Car_Steer. */
  function SteerAmount(desired: int, current: int): (t: int)
    ensures -TURN_STEP_50CC <= t <= TURN_STEP_50CC
  {
    var d := ShortestDiff(desired, current);
    if d > 0 then (if d > TURN_STEP_50CC then TURN_STEP_50CC else d)
    else if d < 0 then (if d < -TURN_STEP_50CC then -TURN_STEP_50CC else d)
    else 0
  }

  /**
   * The turn goes the short way round, by the whole difference when it is
   * at most one steering step and by one step otherwise; no difference, no
   * turn.
   */
  lemma SteerTakesShortestWay(desired: int, current: int)
    ensures var d, t := ShortestDiff(desired, current), SteerAmount(desired, current);
      (t == 0 <==> d == 0) && (t > 0 <==> d > 0) &&
      Abs(t) == Min(Abs(d), TURN_STEP_50CC)
  {
  }

  /** Wrapping the current angle first does not change the wrapped difference. */
  lemma WrapOfWrapped(desired: int, a: int)
    ensures Wrap(desired - Wrap(a)) == Wrap(desired - a)
  {
    var q := a / ANGLE_FULL;
    assert Wrap(a) == a - ANGLE_FULL * q;
    assert desired - Wrap(a) == (desired - a) + ANGLE_FULL * q;
    ShiftByTurns(desired - a, q);
  }

  /** Adding whole turns leaves the wrapped angle alone. */
  lemma {:induction false} ShiftByTurns(x: int, q: int)
    ensures Wrap(x + ANGLE_FULL * q) == Wrap(x)
    decreases if q < 0 then -q else q
  {
    if q > 0 {
      ShiftByTurns(x, q - 1);
      assert x + ANGLE_FULL * q == (x + ANGLE_FULL * (q - 1)) + ANGLE_FULL;
    } else if q < 0 {
      ShiftByTurns(x, q + 1);
      assert x + ANGLE_FULL * q == (x + ANGLE_FULL * (q + 1)) - ANGLE_FULL;
    }
  }

  /**
   * Steering closes the gap: after the turn the shortest difference to the
   * desired angle is smaller by exactly the turn, so repeated steering
   * reaches the desired angle and never overshoots it.
   */
  lemma SteeringClosesTheGap(desired: int, current: int)
    ensures var t := SteerAmount(desired, current);
      ShortestDiff(desired, Wrap(current + t)) == ShortestDiff(desired, current) - t
  {
    var d := ShortestDiff(desired, current);
    var t := SteerAmount(desired, current);
    WrapOfWrapped(desired, current + t);
    var e := d - t;
    assert -ANGLE_HALF < e <= ANGLE_HALF;
    var w := Wrap(desired - current);
    assert d == w || d == w - ANGLE_FULL;
    if e >= 0 {
      assert desired - (current + t) == e + (w - d) + ANGLE_FULL * ((desired - current) / ANGLE_FULL);
      ShiftByTurns(e, (w - d) / ANGLE_FULL + (desired - current) / ANGLE_FULL);
      assert (w - d) == ANGLE_FULL * ((w - d) / ANGLE_FULL);
      assert Wrap(desired - (current + t)) == Wrap(e);
    } else {
      assert desired - (current + t) == (e + ANGLE_FULL) + (w - d - ANGLE_FULL) + ANGLE_FULL * ((desired - current) / ANGLE_FULL);
      assert (w - d - ANGLE_FULL) == ANGLE_FULL * ((w - d - ANGLE_FULL) / ANGLE_FULL);
      ShiftByTurns(e + ANGLE_FULL, (w - d - ANGLE_FULL) / ANGLE_FULL + (desired - current) / ANGLE_FULL);
      assert Wrap(desired - (current + t)) == Wrap(e + ANGLE_FULL);
    }
  }

  /** The facing angle after executeSteeringControl: Car_Steer is not called for a zero turn. */
  function SteeredAngle(angle512: int, desired: int): int
  {
    var t := SteerAmount(desired, angle512);
    if t == 0 then angle512 else Wrap(angle512 + t)
  }

  /** The branches of executeSteeringControl pick the turn SteerAmount names. */
  lemma SteerBranches(desired: int, current: int)
    ensures var d := ShortestDiff(desired, current);
      (d > 0 ==> SteerAmount(desired, current) == (if d > TURN_STEP_50CC then TURN_STEP_50CC else d)) &&
      (d < 0 ==> SteerAmount(desired, current) == (if d < -TURN_STEP_50CC then -TURN_STEP_50CC else d)) &&
      (d == 0 ==> SteerAmount(desired, current) == 0) &&
      Wrap(desired - current) == (if d < 0 then d + ANGLE_FULL else d)
  {
  }

  /** executeSteeringControl: turn the car toward the target by at most one steering step. */
  method ExecuteSteeringControl(car: Car, targetPos: Vec2)
    modifies car
    ensures car.State() == old(car.State()).(angle512 := SteeredAngle(old(car.angle512), AngleOf(Sub(targetPos, old(car.position)))))
    ensures var desired := AngleOf(Sub(targetPos, old(car.position)));
      ShortestDiff(desired, car.angle512) ==
        ShortestDiff(desired, old(car.angle512)) - SteerAmount(desired, old(car.angle512))
  {
    var toTarget := Sub(targetPos, car.position);
    var desiredAngle := ToAngle(toTarget);
    SteerToward(car, desiredAngle);
  }

  /** The rest of executeSteeringControl, once the desired angle is known. */
  method SteerToward(car: Car, desiredAngle: int)
    modifies car
    ensures car.State() == old(car.State()).(angle512 := SteeredAngle(old(car.angle512), desiredAngle))
    ensures ShortestDiff(desiredAngle, car.angle512) ==
      ShortestDiff(desiredAngle, old(car.angle512)) - SteerAmount(desiredAngle, old(car.angle512))
  {
    var currentAngle := car.angle512;
    ghost var d := ShortestDiff(desiredAngle, currentAngle);
    ghost var turn := SteerAmount(desiredAngle, currentAngle);
    SteerBranches(desiredAngle, currentAngle);
    var angleDiff := Wrap(desiredAngle - currentAngle);
    if angleDiff > ANGLE_HALF {
      angleDiff := angleDiff - ANGLE_FULL;
    }
    assert angleDiff == d;
    if angleDiff > 0 {
      var turnAmount := if angleDiff > TURN_STEP_50CC then TURN_STEP_50CC else angleDiff;
      assert turnAmount == turn != 0;
      car.Steer(turnAmount);
      SteeredAngleCloses(desiredAngle, currentAngle, turnAmount, car.angle512);
    } else if angleDiff < 0 {
      var turnAmount := if angleDiff < -TURN_STEP_50CC then -TURN_STEP_50CC else angleDiff;
      assert turnAmount == turn != 0;
      car.Steer(turnAmount);
      SteeredAngleCloses(desiredAngle, currentAngle, turnAmount, car.angle512);
    } else {
      assert turn == 0;
      SteeredAngleCloses(desiredAngle, currentAngle, turn, car.angle512);
    }
  }

  /** The angle the branches leave is SteeredAngle, and it closes the gap by the turn taken. */
  lemma SteeredAngleCloses(desired: int, current: int, turn: int, after: int)
    requires turn == SteerAmount(desired, current)
    requires turn == 0 ==> after == current
    requires turn != 0 ==> after == Wrap(current + turn)
    ensures after == SteeredAngle(current, desired)
    ensures ShortestDiff(desired, after) == ShortestDiff(desired, current) - turn
  {
    SteeringClosesTheGap(desired, current);
  }

  /** The lookahead radius: 80 pixels scaled by speed / SPEED_50CC, the scale held to [0.5, 1.2]. */
  function LookaheadDistance(speed: int): (d: int)
    ensures speed <= 0 ==> d == LOOKAHEAD_DISTANCE
    ensures speed > 0 ==> FixedMul(LOOKAHEAD_DISTANCE, FIXED_ONE / 2) <= d <= FixedMul(LOOKAHEAD_DISTANCE, FIXED_ONE * 120 / 100)
  {
    if speed > 0 then
      var scale := FixedDiv(speed, SPEED_50CC);
      var lo := if scale < FIXED_ONE / 2 then FIXED_ONE / 2 else scale;
      var clamped := if lo > FIXED_ONE * 120 / 100 then FIXED_ONE * 120 / 100 else lo;
      FixedMul(LOOKAHEAD_DISTANCE, clamped)
    else LOOKAHEAD_DISTANCE
  }

  /** The target waypoint after the reach test: the next one, cyclically, once within 30 pixels. */
  function AdvancedTarget(wps: seq<Waypoint>, count: int, carPos: Vec2, target: int): (t: int)
    requires 0 < count <= |wps| && 0 <= target < |wps|
    ensures 0 <= t < |wps|
    ensures t == target || t == (target + 1) % count
  {
    if DistanceSquared(carPos, wps[target].position) < FixedMul(WAYPOINT_REACH_THRESHOLD, WAYPOINT_REACH_THRESHOLD)
    then (target + 1) % count
    else target
  }

  /** The waypoint offset steps past the target, cyclically. */
  function AheadIndex(target: int, offset: int, count: int): (i: int)
    requires 0 < count && 0 <= target && 0 <= offset
    ensures 0 <= i < count
  {
    (target + offset) % count
  }

  /** Whether the waypoint offset steps past the target lies within the lookahead radius. */
  predicate WithinLookahead(wps: seq<Waypoint>, count: int, carPos: Vec2, target: int, limitSq: int, offset: int)
    requires 0 < count <= |wps| && 0 <= target && 0 <= offset
  {
    DistanceSquared(carPos, wps[AheadIndex(target, offset, count)].position) <= limitSq
  }

  /** The lookahead scan from offset on: keep the last waypoint within range, stop at the first beyond. */
  function Scan(wps: seq<Waypoint>, count: int, carPos: Vec2, target: int, limitSq: int,
                offset: int, point: Vec2, next: int): (Vec2, int)
    requires 0 < count <= |wps| && 0 <= target && 0 <= offset <= 5
    decreases 5 - offset
  {
    if offset == 5 then (point, next)
    else if WithinLookahead(wps, count, carPos, target, limitSq, offset) then
      var idx := AheadIndex(target, offset, count);
      Scan(wps, count, carPos, target, limitSq, offset + 1, wps[idx].position, idx)
    else (point, next)
  }

  /** A scan from offset stops at k: every offset before k is in range and k is beyond it, or the last. */
  predicate StopsAt(wps: seq<Waypoint>, count: int, carPos: Vec2, target: int, limitSq: int, offset: int, k: int)
    requires 0 < count <= |wps| && 0 <= target && 0 <= offset
  {
    offset <= k <= 5 &&
    (forall j | offset <= j < k :: WithinLookahead(wps, count, carPos, target, limitSq, j)) &&
    (k == 5 || !WithinLookahead(wps, count, carPos, target, limitSq, k))
  }

  /** What a scan that stops at k returns: the waypoint just before k, or the starting pair. */
  function Stopped(wps: seq<Waypoint>, count: int, target: int, offset: int, k: int, point: Vec2, next: int): (Vec2, int)
    requires 0 < count <= |wps| && 0 <= target && 0 <= offset <= k
  {
    if k == offset then (point, next)
    else (wps[AheadIndex(target, k - 1, count)].position, AheadIndex(target, k - 1, count))
  }

  /**
   * The scan returns the furthest of the consecutive waypoints inside the
   * radius, stopping at the first one outside it.
   */
  lemma {:induction false} ScanIsFurthestInRange(wps: seq<Waypoint>, count: int, carPos: Vec2, target: int,
                                                 limitSq: int, offset: int, point: Vec2, next: int)
    requires 0 < count <= |wps| && 0 <= target && 0 <= offset <= 5
    ensures exists k ::
      StopsAt(wps, count, carPos, target, limitSq, offset, k) &&
      Scan(wps, count, carPos, target, limitSq, offset, point, next) == Stopped(wps, count, target, offset, k, point, next)
    decreases 5 - offset
  {
    if offset == 5 || !WithinLookahead(wps, count, carPos, target, limitSq, offset) {
      assert StopsAt(wps, count, carPos, target, limitSq, offset, offset);
      assert Scan(wps, count, carPos, target, limitSq, offset, point, next) == Stopped(wps, count, target, offset, offset, point, next);
    } else {
      var idx := AheadIndex(target, offset, count);
      ScanIsFurthestInRange(wps, count, carPos, target, limitSq, offset + 1, wps[idx].position, idx);
      var k :| StopsAt(wps, count, carPos, target, limitSq, offset + 1, k) &&
        Scan(wps, count, carPos, target, limitSq, offset + 1, wps[idx].position, idx) ==
          Stopped(wps, count, target, offset + 1, k, wps[idx].position, idx);
      assert StopsAt(wps, count, carPos, target, limitSq, offset, k);
      assert Scan(wps, count, carPos, target, limitSq, offset, point, next) == Stopped(wps, count, target, offset, k, point, next);
    }
  }

  /**
   * A full scan gives back its starting pair, or a waypoint at most four
   * steps past the target that lies inside the radius, with its index.
   */
  lemma ScanPicksInRange(wps: seq<Waypoint>, count: int, carPos: Vec2, target: int, limitSq: int, point: Vec2, next: int)
    requires 0 < count <= |wps| && 0 <= target
    ensures var r := Scan(wps, count, carPos, target, limitSq, 0, point, next);
      r == (point, next) ||
      (exists k | 0 <= k < 5 ::
         r.1 == AheadIndex(target, k, count) && r.0 == wps[r.1].position && DistanceSquared(carPos, r.0) <= limitSq)
  {
    ScanIsFurthestInRange(wps, count, carPos, target, limitSq, 0, point, next);
    var k :| StopsAt(wps, count, carPos, target, limitSq, 0, k) &&
      Scan(wps, count, carPos, target, limitSq, 0, point, next) == Stopped(wps, count, target, 0, k, point, next);
    if k > 0 {
      assert WithinLookahead(wps, count, carPos, target, limitSq, k - 1);
    }
  }

  /**
   * calculateSteeringTarget as a function of the car and the bot's state:
   * the steering point and the state with its two waypoint indices updated.
   */
  function SteeringTarget(wps: seq<Waypoint>, count: int, carPos: Vec2, speed: int, s: BotState): (r: (Vec2, BotState))
    requires 0 <= count <= |wps| && 0 <= s.targetWaypoint < |wps|
  {
    if count == 0 then (carPos, s)
    else
      var t := AdvancedTarget(wps, count, carPos, s.targetWaypoint);
      var la := LookaheadDistance(speed);
      var r := Scan(wps, count, carPos, t, FixedMul(la, la), 0, wps[t].position, s.nextWaypoint);
      (r.0, s.(targetWaypoint := t, nextWaypoint := r.1))
  }

  /**
   * An empty path steers at the car itself and changes nothing; otherwise the
   * target waypoint moves on by at most one, cyclically, only the two
   * waypoint indices change, and the steering point is the (new) target
   * waypoint or the waypoint the next index names, at most four steps past
   * the target and inside the lookahead radius.
   */
  lemma SteeringTargetAdvancesAtMostOne(wps: seq<Waypoint>, count: int, carPos: Vec2, speed: int, s: BotState)
    requires 0 <= count <= |wps| && 0 <= s.targetWaypoint < |wps|
    ensures var (p, s') := SteeringTarget(wps, count, carPos, speed, s);
      (count == 0 ==> p == carPos && s' == s) &&
      (count > 0 ==>
        (s'.targetWaypoint == s.targetWaypoint || s'.targetWaypoint == (s.targetWaypoint + 1) % count) &&
        s' == s.(targetWaypoint := s'.targetWaypoint, nextWaypoint := s'.nextWaypoint) &&
        ((p == wps[s'.targetWaypoint].position && s'.nextWaypoint == s.nextWaypoint) ||
         (exists k | 0 <= k < 5 ::
            s'.nextWaypoint == AheadIndex(s'.targetWaypoint, k, count) && p == wps[s'.nextWaypoint].position &&
            DistanceSquared(carPos, p) <= FixedMul(LookaheadDistance(speed), LookaheadDistance(speed)))))
  {
    if count > 0 {
      var t := AdvancedTarget(wps, count, carPos, s.targetWaypoint);
      var la := LookaheadDistance(speed);
      ScanPicksInRange(wps, count, carPos, t, FixedMul(la, la), wps[t].position, s.nextWaypoint);
    }
  }

  /** The checkpoint search's candidates: a non-checkpoint never beats the starting value. */
  function CheckpointDistances(wps: seq<Waypoint>, pos: Vec2): (ds: seq<int>)
    ensures |ds| == |wps|
  {
    seq(|wps|, i requires 0 <= i < |wps| =>
      if wps[i].isCheckpoint then DistanceSquared(pos, wps[i].position) else CHECKPOINT_FAR)
  }

  /** findNearestCheckpointIndex over a path. */
  function NearestCheckpoint(wps: seq<Waypoint>, pos: Vec2): int
  {
    RunMin(CheckpointDistances(wps, pos), |wps|, -1, CHECKPOINT_FAR).0
  }

  /**
   * The search gives -1 when no checkpoint lies closer than the starting
   * value; otherwise the first checkpoint at the smallest squared distance,
   * which is below that value.
   */
  lemma NearestCheckpointIsFirstClosest(wps: seq<Waypoint>, pos: Vec2)
    ensures var r := NearestCheckpoint(wps, pos);
      (r == -1 && forall k | 0 <= k < |wps| && wps[k].isCheckpoint :: DistanceSquared(pos, wps[k].position) >= CHECKPOINT_FAR) ||
      (0 <= r < |wps| && wps[r].isCheckpoint && DistanceSquared(pos, wps[r].position) < CHECKPOINT_FAR &&
       (forall k | 0 <= k < |wps| && wps[k].isCheckpoint :: DistanceSquared(pos, wps[r].position) <= DistanceSquared(pos, wps[k].position)) &&
       (forall k | 0 <= k < r && wps[k].isCheckpoint :: DistanceSquared(pos, wps[k].position) > DistanceSquared(pos, wps[r].position)))
  {
    var ds := CheckpointDistances(wps, pos);
    RunMinIsFirstMinimum(ds, |wps|, -1, CHECKPOINT_FAR);
    var r := RunMin(ds, |wps|, -1, CHECKPOINT_FAR);
    if r.0 >= 0 {
      assert wps[r.0].isCheckpoint;
      forall k | 0 <= k < |wps| && wps[k].isCheckpoint
        ensures DistanceSquared(pos, wps[r.0].position) <= DistanceSquared(pos, wps[k].position)
      {
        assert ds[k] == DistanceSquared(pos, wps[k].position);
      }
      forall k | 0 <= k < r.0 && wps[k].isCheckpoint
        ensures DistanceSquared(pos, wps[k].position) > DistanceSquared(pos, wps[r.0].position)
      {
        assert ds[k] == DistanceSquared(pos, wps[k].position);
      }
    } else {
      forall k | 0 <= k < |wps| && wps[k].isCheckpoint
        ensures DistanceSquared(pos, wps[k].position) >= CHECKPOINT_FAR
      {
        assert ds[k] == DistanceSquared(pos, wps[k].position);
      }
    }
  }

  /** The folded gap between two angles: at most half a turn, whichever way round. */
  function AngleGap(a: int, b: int): (g: int)
    ensures 0 <= g <= ANGLE_HALF
  {
    var m := Wrap(b - a);
    if m > ANGLE_HALF then ANGLE_FULL - m else m
  }

  /** isOnStraightaway as the C writes it: plain absolute differences, no wraparound. */
  function IsOnStraightawayAsWritten(wps: seq<Waypoint>, count: int, currentWP: int): bool
    requires 0 <= count <= |wps| && 0 <= currentWP
  {
    if count < 3 then true
    else
      var angle1 := wps[currentWP % count].cornerAngle512;
      var angle2 := wps[(currentWP + 1) % count].cornerAngle512;
      var angle3 := wps[(currentWP + 2) % count].cornerAngle512;
      Abs(angle2 - angle1) < STRAIGHT_ANGLE_LIMIT && Abs(angle3 - angle2) < STRAIGHT_ANGLE_LIMIT
  }

  /** isOnStraightaway with the heading changes folded the short way round. */
  function IsOnStraightaway(wps: seq<Waypoint>, count: int, currentWP: int): bool
    requires 0 <= count <= |wps| && 0 <= currentWP
  {
    if count < 3 then true
    else
      var angle1 := wps[currentWP % count].cornerAngle512;
      var angle2 := wps[(currentWP + 1) % count].cornerAngle512;
      var angle3 := wps[(currentWP + 2) % count].cornerAngle512;
      AngleGap(angle1, angle2) < STRAIGHT_ANGLE_LIMIT && AngleGap(angle2, angle3) < STRAIGHT_ANGLE_LIMIT
  }

  /** The path with every corner angle turned by k. */
  function Rotated(wps: seq<Waypoint>, k: int): (r: seq<Waypoint>)
    ensures |r| == |wps|
    ensures forall i | 0 <= i < |wps| :: r[i].cornerAngle512 == Wrap(wps[i].cornerAngle512 + k)
  {
    seq(|wps|, i requires 0 <= i < |wps| => wps[i].(cornerAngle512 := Wrap(wps[i].cornerAngle512 + k)))
  }

  /** Turning both angles by the same amount keeps their gap. */
  lemma GapIgnoresHeading(a: int, b: int, k: int)
    ensures AngleGap(Wrap(a + k), Wrap(b + k)) == AngleGap(a, b)
  {
    var qa, qb := (a + k) / ANGLE_FULL, (b + k) / ANGLE_FULL;
    assert Wrap(b + k) - Wrap(a + k) == (b - a) + ANGLE_FULL * (qa - qb);
    ShiftByTurns(b - a, qa - qb);
  }

  /**
   * The corrected test depends only on how the heading changes, not on the
   * direction the straight points in: turning every corner angle by the same
   * amount leaves it unchanged.
   */
  lemma StraightawayIgnoresHeading(wps: seq<Waypoint>, count: int, currentWP: int, k: int)
    requires 0 <= count <= |wps| && 0 <= currentWP
    ensures IsOnStraightaway(Rotated(wps, k), count, currentWP) == IsOnStraightaway(wps, count, currentWP)
  {
    if count >= 3 {
      var i1, i2, i3 := currentWP % count, (currentWP + 1) % count, (currentWP + 2) % count;
      GapIgnoresHeading(wps[i1].cornerAngle512, wps[i2].cornerAngle512, k);
      GapIgnoresHeading(wps[i2].cornerAngle512, wps[i3].cornerAngle512, k);
    }
  }

  /** For angles in range, a small plain difference is a small folded one: the C test is the stricter. */
  lemma AsWrittenIsStricter(wps: seq<Waypoint>, count: int, currentWP: int)
    requires 0 <= count <= |wps| && 0 <= currentWP
    requires forall i | 0 <= i < |wps| :: 0 <= wps[i].cornerAngle512 < ANGLE_FULL
    ensures IsOnStraightawayAsWritten(wps, count, currentWP) ==> IsOnStraightaway(wps, count, currentWP)
  {
    if count >= 3 {
      var i1, i2, i3 := currentWP % count, (currentWP + 1) % count, (currentWP + 2) % count;
      SmallDiffSmallGap(wps[i1].cornerAngle512, wps[i2].cornerAngle512);
      SmallDiffSmallGap(wps[i2].cornerAngle512, wps[i3].cornerAngle512);
    }
  }

  lemma SmallDiffSmallGap(a: int, b: int)
    requires 0 <= a < ANGLE_FULL && 0 <= b < ANGLE_FULL
    ensures Abs(b - a) < ANGLE_HALF ==> AngleGap(a, b) == Abs(b - a)
  {
    if b - a < 0 {
      assert Wrap(b - a) == b - a + ANGLE_FULL;
    }
  }

  /** Three waypoints heading 511, 1 and 3: two steps of 2 units across the zero heading. */
  const STRAIGHT_ACROSS_ZERO: seq<Waypoint> :=
    [ZERO_WAYPOINT.(cornerAngle512 := 511), ZERO_WAYPOINT.(cornerAngle512 := 1), ZERO_WAYPOINT.(cornerAngle512 := 3)]

  /**
   * The C test calls a straight that crosses heading 0 a corner, although the
   * same straight turned two units (headings 1, 3, 5) passes it; the folded
   * test calls both straight.
   */
  lemma StraightawayAsWrittenMissesWrap()
    ensures !IsOnStraightawayAsWritten(STRAIGHT_ACROSS_ZERO, 3, 0)
    ensures IsOnStraightawayAsWritten(Rotated(STRAIGHT_ACROSS_ZERO, 2), 3, 0)
    ensures IsOnStraightaway(STRAIGHT_ACROSS_ZERO, 3, 0)
  {
    var r := Rotated(STRAIGHT_ACROSS_ZERO, 2);
    assert r[0].cornerAngle512 == 1 && r[1].cornerAngle512 == 3 && r[2].cornerAngle512 == 5;
    assert Wrap(1 - 511) == 2;
  }

  /** determineQuadrantAtPos: the same 3 x 3 grid the gameplay logic uses for cars. */
  function QuadrantAtPos(x: int, y: int): (q: int)
    ensures q == GameplayLogic.CarQuadrant(x, y)
    ensures 0 <= q <= 8
  {
    var col := if x < GameplayLogic.QUAD_OFFSET then 0 else if x < 2 * GameplayLogic.QUAD_OFFSET then 1 else 2;
    var row := if y < GameplayLogic.QUAD_OFFSET then 0 else if y < 2 * GameplayLogic.QUAD_OFFSET then 1 else 2;
    row * GameplayLogic.QUADRANT_GRID_SIZE + col
  }

  /** The module statics: botStates[MAX_CARS] and currentTrackWaypoints. */
  class Bots {
    const botStates: array<BotState>
    const waypoints: array<Waypoint>
    var count: int

    predicate Valid()
      reads this
    {
      botStates.Length == MAX_CARS && waypoints.Length == MAX_WAYPOINTS && 0 <= count <= MAX_WAYPOINTS
    }

    /** The statics as the program starts: everything zero. */
    constructor()
      ensures Valid() && count == 0
      ensures botStates[..] == seq(MAX_CARS, _ => ZERO_STATE)
      ensures waypoints[..] == seq(MAX_WAYPOINTS, _ => ZERO_WAYPOINT)
    {
      botStates := new BotState[MAX_CARS](_ => ZERO_STATE);
      waypoints := new Waypoint[MAX_WAYPOINTS](_ => ZERO_WAYPOINT);
      count := 0;
    }

    /** BotAI_Reset: out-of-range indices are ignored. */
    method Reset(botIndex: int)
      requires Valid()
      modifies botStates
      ensures 0 <= botIndex < MAX_CARS ==>
        botStates[..] == old(botStates[..])[botIndex := ResetState(old(botStates[botIndex]))]
      ensures !(0 <= botIndex < MAX_CARS) ==> botStates[..] == old(botStates[..])
    {
      if botIndex < 0 || botIndex >= MAX_CARS {
        return;
      }
      var state := botStates[botIndex];
      state := state.(targetWaypoint := 0, nextWaypoint := 1, targetPosition := Zero());
      state := state.(mistakeTimer := MISTAKE_INTERVAL_BASE, correctionTimer := 0, stuckTimer := 0);
      state := state.(isOvertaking := false, overtakeTarget := Zero(), nearestHazardPos := Zero());
      state := state.(hazardAvoidanceTimer := 0, targetItemBoxPos := Zero(), seekingItemBox := false);
      state := state.(itemUsageTimer := 0, stuckStillFrames := 0, lastPos := Zero(), lastPosInitialized := false);
      state := state.(personality := state.basePersonality);
      botStates[botIndex] := state;
    }

    /** BotAI_SetPersonality: sets both the base and the working personality. */
    method SetPersonality(botIndex: int, personality: Personality)
      requires Valid()
      modifies botStates
      ensures 0 <= botIndex < MAX_CARS ==>
        botStates[..] == old(botStates[..])[botIndex := old(botStates[botIndex]).(basePersonality := personality, personality := personality)]
      ensures !(0 <= botIndex < MAX_CARS) ==> botStates[..] == old(botStates[..])
    {
      if botIndex < 0 || botIndex >= MAX_CARS {
        return;
      }
      botStates[botIndex] := botStates[botIndex].(basePersonality := personality);
      botStates[botIndex] := botStates[botIndex].(personality := personality);
    }

    /**
     * calculateSteeringTarget for bot botIndex driving car. The C writes the
     * two waypoint indices through a pointer into botStates; here they are
     * updated in a copy that is stored back before returning.
     */
    method CalculateSteeringTarget(car: Car, botIndex: int) returns (lookaheadPoint: Vec2)
      requires Valid() && 0 <= botIndex < MAX_CARS
      requires 0 <= botStates[botIndex].targetWaypoint < MAX_WAYPOINTS
      modifies botStates
      ensures var r := SteeringTarget(waypoints[..], count, car.position, car.speed, old(botStates[botIndex]));
        lookaheadPoint == r.0 && botStates[..] == old(botStates[..])[botIndex := r.1]
    {
      if count == 0 {
        return car.position;
      }
      var state := botStates[botIndex];
      var carPos := car.position;
      var lookaheadDist := Lookahead(car.speed);

      var currentWP := waypoints[state.targetWaypoint].position;
      var thresholdSq := FixedMul(WAYPOINT_REACH_THRESHOLD, WAYPOINT_REACH_THRESHOLD);
      if DistanceSquared(carPos, currentWP) < thresholdSq {
        state := state.(targetWaypoint := (state.targetWaypoint + 1) % count);
      }
      var t := state.targetWaypoint;
      assert t == AdvancedTarget(waypoints[..], count, carPos, old(botStates[botIndex]).targetWaypoint);

      lookaheadPoint := waypoints[t].position;
      var lookaheadSq := FixedMul(lookaheadDist, lookaheadDist);
      ghost var goal := Scan(waypoints[..], count, carPos, t, lookaheadSq, 0, lookaheadPoint, state.nextWaypoint);
      ghost var s1 := state;

      var offset := 0;
      while offset < 5
        invariant 0 <= offset <= 5
        invariant state == s1.(nextWaypoint := state.nextWaypoint)
        invariant Scan(waypoints[..], count, carPos, t, lookaheadSq, offset, lookaheadPoint, state.nextWaypoint) == goal
      {
        var wpIndex := AheadIndex(t, offset, count);
        var wpPos := waypoints[wpIndex].position;
        var distSq := DistanceSquared(carPos, wpPos);
        if distSq <= lookaheadSq {
          lookaheadPoint := wpPos;
          state := state.(nextWaypoint := wpIndex);
        } else {
          break;
        }
        offset := offset + 1;
      }
      botStates[botIndex] := state;
    }

    /** The speed-scaled lookahead radius of calculateSteeringTarget. */
    static method Lookahead(speed: int) returns (lookaheadDist: int)
      ensures lookaheadDist == LookaheadDistance(speed)
    {
      lookaheadDist := LOOKAHEAD_DISTANCE;
      if speed > 0 {
        var speedScale := FixedDiv(speed, SPEED_50CC);
        if speedScale < FIXED_ONE / 2 {
          speedScale := FIXED_ONE / 2;
        }
        if speedScale > FIXED_ONE * 120 / 100 {
          speedScale := FIXED_ONE * 120 / 100;
        }
        lookaheadDist := FixedMul(lookaheadDist, speedScale);
      }
    }

    /** findNearestCheckpointIndex: the nearest checkpoint waypoint of the current path. */
    method FindNearestCheckpointIndex(position: Vec2) returns (bestIndex: int)
      requires Valid()
      ensures bestIndex == NearestCheckpoint(waypoints[..count], position)
    {
      ghost var ds := CheckpointDistances(waypoints[..count], position);
      bestIndex := -1;
      var bestDistSq := CHECKPOINT_FAR;
      var i := 0;
      while i < count
        invariant 0 <= i <= count
        invariant (bestIndex, bestDistSq) == RunMin(ds, i, -1, CHECKPOINT_FAR)
        invariant bestDistSq <= CHECKPOINT_FAR
      {
        if !waypoints[i].isCheckpoint {
          i := i + 1;
          continue;
        }
        var distSq := DistanceSquared(position, waypoints[i].position);
        if distSq < bestDistSq {
          bestDistSq := distSq;
          bestIndex := i;
        }
        i := i + 1;
      }
    }
  }
}
