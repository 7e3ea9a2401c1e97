/**
 * The player's item slot (gameplay/items/items_inventory.c): using the held
 * item, drawing a random item from a box, and picking the missile's target
 * as the car furthest ahead in the player's heading.
 */
module ItemInventory {
  import opened FixedMath
  import opened GameTypes
  import opened CarPhysics
  import opened ItemEffects
  import opened ItemState
  import opened ItemSpawning

  /** One rank's row of a probability table: a weight per item. */
  datatype ItemProbability = ItemProbability(
    banana: int, oil: int, bomb: int, greenShell: int, redShell: int, missile: int, mushroom: int, speedBoost: int)

  /** The order in which the draw walks the weights. */
  const DRAW_ORDER: seq<int> :=
    [ITEM_BANANA, ITEM_OIL, ITEM_BOMB, ITEM_GREEN_SHELL, ITEM_RED_SHELL, ITEM_MISSILE, ITEM_MUSHROOM, ITEM_SPEEDBOOST]

  /** The weights of a row, in draw order. */
  function Weights(p: ItemProbability): (ws: seq<int>)
    ensures |ws| == |DRAW_ORDER|
  {
    [p.banana, p.oil, p.bomb, p.greenShell, p.redShell, p.missile, p.mushroom, p.speedBoost]
  }

  /** The sum of the first n weights. */
  function Cumulative(ws: seq<int>, n: nat): int
    requires n <= |ws|
    decreases n
  {
    if n == 0 then 0 else Cumulative(ws, n - 1) + ws[n - 1]
  }

  /** The sum of all weights of a row. */
  function Total(p: ItemProbability): int
  {
    p.banana + p.oil + p.bomb + p.greenShell + p.redShell + p.missile + p.mushroom + p.speedBoost
  }

  /** The table row for a rank: 1st place is row 0, and ranks past 8th share row 7. */
  function RankIndex(playerRank: int): (i: int)
    ensures 0 <= i < 8
    ensures 1 <= playerRank <= 8 ==> i == playerRank - 1
    ensures playerRank < 1 ==> i == 0
    ensures playerRank > 8 ==> i == 7
  {
    var i := playerRank - 1;
    if i < 0 then 0 else if i >= 8 then 7 else i
  }

  /** The cascade of Items_GetRandomItem for a roll. */
  function Draw(p: ItemProbability, roll: int): int
  {
    var c1 := p.banana;
    if roll < c1 then ITEM_BANANA
    else var c2 := c1 + p.oil;
    if roll < c2 then ITEM_OIL
    else var c3 := c2 + p.bomb;
    if roll < c3 then ITEM_BOMB
    else var c4 := c3 + p.greenShell;
    if roll < c4 then ITEM_GREEN_SHELL
    else var c5 := c4 + p.redShell;
    if roll < c5 then ITEM_RED_SHELL
    else var c6 := c5 + p.missile;
    if roll < c6 then ITEM_MISSILE
    else var c7 := c6 + p.mushroom;
    if roll < c7 then ITEM_MUSHROOM
    else ITEM_SPEEDBOOST
  }

  /** The first position k >= from (at most the last) whose cumulative weight exceeds the roll. */
  function FirstAbove(ws: seq<int>, roll: int, from: nat): (k: nat)
    requires from < |ws|
    ensures from <= k < |ws|
    ensures k + 1 < |ws| ==> roll < Cumulative(ws, k + 1)
    ensures forall j | from < j <= k :: roll >= Cumulative(ws, j)
    decreases |ws| - from
  {
    if from == |ws| - 1 || roll < Cumulative(ws, from + 1) then from
    else FirstAbove(ws, roll, from + 1)
  }

  /**
   * For a roll in [0, total) the draw returns the item whose cumulative
   * weight interval holds the roll, so its weight is positive; it is never
   * ITEM_NONE or ITEM_BOX.
   */
  lemma DrawIsByCumulativeWeight(p: ItemProbability, roll: int)
    requires 0 <= roll < Total(p)
    ensures var ws := Weights(p);
      var k := FirstAbove(ws, roll, 0);
      Draw(p, roll) == DRAW_ORDER[k] &&
      Cumulative(ws, k) <= roll < Cumulative(ws, k + 1) && ws[k] > 0
    ensures Draw(p, roll) != ITEM_NONE && Draw(p, roll) != ITEM_BOX
  {
    var ws := Weights(p);
    assert Cumulative(ws, 1) == p.banana;
    assert Cumulative(ws, 2) == p.banana + p.oil;
    assert Cumulative(ws, 3) == Cumulative(ws, 2) + p.bomb;
    assert Cumulative(ws, 4) == Cumulative(ws, 3) + p.greenShell;
    assert Cumulative(ws, 5) == Cumulative(ws, 4) + p.redShell;
    assert Cumulative(ws, 6) == Cumulative(ws, 5) + p.missile;
    assert Cumulative(ws, 7) == Cumulative(ws, 6) + p.mushroom;
    assert Cumulative(ws, 8) == Total(p);
    var k := FirstAbove(ws, roll, 0);
    assert k == 0 || roll >= Cumulative(ws, k);
  }

  /** The table for the game mode. */
  function TableFor(mode: GameMode, tableMP: seq<ItemProbability>, tableSP: seq<ItemProbability>): seq<ItemProbability>
  {
    if mode == MultiPlayer then tableMP else tableSP
  }

  /**
   * Items_GetRandomItem, with the probability tables and the value of
   * rand() as parameters. The roll is rand() % total, so a row that sums to
   * 0 is a division by zero.
   */
  function GetRandomItem(playerRank: int, mode: GameMode, tableMP: seq<ItemProbability>, tableSP: seq<ItemProbability>,
                         rand: nat): (item: int)
    requires |tableMP| == 8 && |tableSP| == 8
    requires Total(TableFor(mode, tableMP, tableSP)[RankIndex(playerRank)]) != 0
    ensures item in DRAW_ORDER
  {
    var p := TableFor(mode, tableMP, tableSP)[RankIndex(playerRank)];
    Draw(p, TruncMod(rand, Total(p)))
  }

  /** With a positive total the roll falls in [0, total) and the drawn item has positive weight in its rank's row. */
  lemma GetRandomItemHasWeight(playerRank: int, mode: GameMode, tableMP: seq<ItemProbability>, tableSP: seq<ItemProbability>,
                               rand: nat)
    requires |tableMP| == 8 && |tableSP| == 8
    requires Total(TableFor(mode, tableMP, tableSP)[RankIndex(playerRank)]) > 0
    ensures var p := TableFor(mode, tableMP, tableSP)[RankIndex(playerRank)];
      var roll := TruncMod(rand, Total(p));
      0 <= roll < Total(p) &&
      GetRandomItem(playerRank, mode, tableMP, tableSP, rand) == DRAW_ORDER[FirstAbove(Weights(p), roll, 0)] &&
      Weights(p)[FirstAbove(Weights(p), roll, 0)] > 0
  {
    var p := TableFor(mode, tableMP, tableSP)[RankIndex(playerRank)];
    DrawIsByCumulativeWeight(p, TruncMod(rand, Total(p)));
  }

  // ---------------------------------------------------------------------
  // Missile targeting
  // ---------------------------------------------------------------------

  /** The cars' positions. */
  function Positions(cs: seq<CarValue>): (ps: seq<Vec2>)
    ensures |ps| == |cs|
    ensures forall i | 0 <= i < |cs| :: ps[i] == cs[i].position
  {
    seq(|cs|, i requires 0 <= i < |cs| => cs[i].position)
  }

  /** The angle between a direction and a heading, folded into [0, 256]. */
  function ConeOffset(angleToOther: int, direction512: int): (d: int)
    ensures 0 <= d <= ANGLE_HALF
  {
    var diff := Wrap(angleToOther - direction512);
    if diff > ANGLE_HALF then ANGLE_FULL - diff else diff
  }

  /** Car i is a target candidate: not the player, not on the spot, ahead, and within ANGLE_QUARTER of the heading. */
  predicate IsCandidate(from: Vec2, direction512: int, playerIndex: int, positions: seq<Vec2>, i: int)
    requires 0 <= i < |positions|
  {
    var toOther := Sub(positions[i], from);
    i != playerIndex && !IsZero(toOther) && Dot(toOther, FromAngle(direction512)) > 0 &&
    ConeOffset(AngleOf(toOther), direction512) <= ANGLE_QUARTER
  }

  /** How far ahead car i is: its dot product with the heading. */
  function AheadScore(from: Vec2, direction512: int, positions: seq<Vec2>, i: int): int
    requires 0 <= i < |positions|
  {
    Dot(Sub(positions[i], from), FromAngle(direction512))
  }

  /** What the scan needs to know about one car: whether it qualifies and its score. */
  datatype Bearing = Bearing(candidate: bool, score: int)

  function BearingOf(from: Vec2, direction512: int, playerIndex: int, positions: seq<Vec2>, i: int): Bearing
    requires 0 <= i < |positions|
  {
    Bearing(IsCandidate(from, direction512, playerIndex, positions, i), AheadScore(from, direction512, positions, i))
  }

  /** The bearings of the first n cars. */
  function Bearings(from: Vec2, direction512: int, playerIndex: int, positions: seq<Vec2>, n: nat): (bs: seq<Bearing>)
    requires n <= |positions|
    ensures |bs| == n
    ensures forall i | 0 <= i < n :: bs[i] == BearingOf(from, direction512, playerIndex, positions, i)
  {
    seq(n, i requires 0 <= i < n => BearingOf(from, direction512, playerIndex, positions, i))
  }

  /**
   * findCarInDirection's scan over the first n bearings: (best target, best
   * score) so far, starting from (-1, IntToFixed(-1)); a candidate replaces
   * the best only with a strictly larger score, so the first of equal
   * scores wins.
   */
  function Scan(bs: seq<Bearing>, n: nat): (int, int)
    requires n <= |bs|
    decreases n
  {
    if n == 0 then (INVALID_CAR_INDEX, IntToFixed(-1))
    else
      var p := Scan(bs, n - 1);
      if bs[n - 1].candidate && bs[n - 1].score > p.1 then (n - 1, bs[n - 1].score) else p
  }

  /**
   * After n bearings the scan holds either the start, when no candidate
   * beat IntToFixed(-1), or the first candidate with the largest score.
   */
  lemma {:induction false} ScanIsFirstBest(bs: seq<Bearing>, n: nat)
    requires n <= |bs|
    ensures var r := Scan(bs, n);
      (r == (INVALID_CAR_INDEX, IntToFixed(-1)) &&
        forall k | 0 <= k < n && bs[k].candidate :: bs[k].score <= IntToFixed(-1)) ||
      (0 <= r.0 < n && bs[r.0].candidate && r.1 == bs[r.0].score > IntToFixed(-1) &&
        (forall k | 0 <= k < n && bs[k].candidate :: bs[k].score <= r.1) &&
        (forall k | 0 <= k < r.0 && bs[k].candidate :: bs[k].score < r.1))
    decreases n
  {
    if n > 0 {
      ScanIsFirstBest(bs, n - 1);
    }
  }

  /** findCarInDirection on values. */
  function CarInDirection(from: Vec2, direction512: int, playerIndex: int, positions: seq<Vec2>, carCount: int): int
    requires carCount <= |positions|
  {
    if carCount <= 1 then INVALID_CAR_INDEX
    else Scan(Bearings(from, direction512, playerIndex, positions, carCount), carCount).0
  }

  /** A candidate is ahead: its score is positive. */
  lemma CandidateIsAhead(from: Vec2, direction512: int, playerIndex: int, positions: seq<Vec2>, i: int)
    requires 0 <= i < |positions| && IsCandidate(from, direction512, playerIndex, positions, i)
    ensures AheadScore(from, direction512, positions, i) > 0
  {
  }

  /**
   * The target is -1 exactly when there are at most one car or no
   * candidate; otherwise it is a candidate (so never the player) with the
   * largest score, and the first such one.
   */
  lemma CarInDirectionIsFurthestAhead(from: Vec2, direction512: int, playerIndex: int, positions: seq<Vec2>, carCount: int)
    requires carCount <= |positions|
    ensures var t := CarInDirection(from, direction512, playerIndex, positions, carCount);
      (t == INVALID_CAR_INDEX <==>
        carCount <= 1 || forall i | 0 <= i < carCount :: !IsCandidate(from, direction512, playerIndex, positions, i)) &&
      (t != INVALID_CAR_INDEX ==>
        0 <= t < carCount && t != playerIndex && IsCandidate(from, direction512, playerIndex, positions, t) &&
        (forall i | 0 <= i < carCount && IsCandidate(from, direction512, playerIndex, positions, i) ::
           AheadScore(from, direction512, positions, i) <= AheadScore(from, direction512, positions, t)) &&
        (forall i | 0 <= i < t && IsCandidate(from, direction512, playerIndex, positions, i) ::
           AheadScore(from, direction512, positions, i) < AheadScore(from, direction512, positions, t)))
  {
    if carCount > 1 {
      var bs := Bearings(from, direction512, playerIndex, positions, carCount);
      ScanIsFirstBest(bs, carCount);
      var r := Scan(bs, carCount);
      if r == (INVALID_CAR_INDEX, IntToFixed(-1)) {
        forall i | 0 <= i < carCount
          ensures !IsCandidate(from, direction512, playerIndex, positions, i)
        {
          assert bs[i] == BearingOf(from, direction512, playerIndex, positions, i);
          if IsCandidate(from, direction512, playerIndex, positions, i) {
            CandidateIsAhead(from, direction512, playerIndex, positions, i);
          }
        }
      } else {
        var t := r.0;
        assert bs[t] == BearingOf(from, direction512, playerIndex, positions, t);
        forall i | 0 <= i < carCount && IsCandidate(from, direction512, playerIndex, positions, i)
          ensures AheadScore(from, direction512, positions, i) <= AheadScore(from, direction512, positions, t)
        {
          assert bs[i] == BearingOf(from, direction512, playerIndex, positions, i);
        }
        forall i | 0 <= i < t && IsCandidate(from, direction512, playerIndex, positions, i)
          ensures AheadScore(from, direction512, positions, i) < AheadScore(from, direction512, positions, t)
        {
          assert bs[i] == BearingOf(from, direction512, playerIndex, positions, i);
        }
      }
    }
  }

  /** The angle between the car's bearing and the heading, folded the way findCarInDirection does. */
  method FoldAngleDiff(angleToOther: int, direction512: int) returns (angleDiff: int)
    ensures angleDiff == ConeOffset(angleToOther, direction512)
  {
    angleDiff := Wrap(angleToOther - direction512);
    if angleDiff > ANGLE_HALF {
      angleDiff := ANGLE_FULL - angleDiff;
    }
  }

  /** The candidate test and score of one car, as findCarInDirection's loop body computes them. */
  method ScoreCar(fromPosition: Vec2, direction512: int, directionVec: Vec2, playerIndex: int, positions: seq<Vec2>, i: int)
    returns (candidate: bool, dotProduct: int)
    requires 0 <= i < |positions| && directionVec == FromAngle(direction512)
    ensures candidate == IsCandidate(fromPosition, direction512, playerIndex, positions, i)
    ensures candidate ==> dotProduct == AheadScore(fromPosition, direction512, positions, i)
  {
    dotProduct := 0;
    if i == playerIndex {
      return false, dotProduct;
    }
    var toOther := Sub(positions[i], fromPosition);
    if IsZero(toOther) {
      return false, dotProduct;
    }
    dotProduct := Dot(toOther, directionVec);
    if dotProduct <= 0 {
      return false, dotProduct;
    }
    var angleToOther := ToAngle(toOther);
    var angleDiff := FoldAngleDiff(angleToOther, direction512);
    if angleDiff > ANGLE_QUARTER {
      return false, dotProduct;
    }
    candidate := true;
  }

  /** findCarInDirection's loop over the first carCount cars. */
  method ScanCars(fromPosition: Vec2, direction512: int, playerIndex: int, positions: seq<Vec2>, carCount: nat)
    returns (bestTarget: int, bestScore: int)
    requires carCount <= |positions|
    ensures (bestTarget, bestScore) == Scan(Bearings(fromPosition, direction512, playerIndex, positions, carCount), carCount)
  {
    var directionVec := FromAngle(direction512);
    bestTarget := INVALID_CAR_INDEX;
    bestScore := IntToFixed(-1);
    ghost var bs := Bearings(fromPosition, direction512, playerIndex, positions, carCount);
    for i := 0 to carCount
      invariant (bestTarget, bestScore) == Scan(bs, i)
    {
      var candidate, dotProduct := ScoreCar(fromPosition, direction512, directionVec, playerIndex, positions, i);
      if candidate && dotProduct > bestScore {
        bestScore := dotProduct;
        bestTarget := i;
      }
    }
  }

  /** findCarInDirection: no target with at most one car, else the scan's best. */
  method FindCarInDirection(fromPosition: Vec2, direction512: int, playerIndex: int, positions: seq<Vec2>, carCount: int)
    returns (bestTarget: int)
    requires carCount <= |positions|
    ensures bestTarget == CarInDirection(fromPosition, direction512, playerIndex, positions, carCount)
  {
    if carCount <= 1 {
      return INVALID_CAR_INDEX;
    }
    var bestScore;
    bestTarget, bestScore := ScanCars(fromPosition, direction512, playerIndex, positions, carCount);
  }

  /** findCarAhead: the rank argument is unused; the search runs from the player's own car. */
  method FindCarAhead(currentRank: int, carCount: int, playerIndex: int, cars: seq<CarValue>) returns (target: int)
    requires 0 <= playerIndex < |cars| && carCount <= |cars|
    ensures target == CarInDirection(cars[playerIndex].position, cars[playerIndex].angle512, playerIndex, Positions(cars), carCount)
  {
    var player := cars[playerIndex];
    target := FindCarInDirection(player.position, player.angle512, playerIndex, Positions(cars), carCount);
  }

  // ---------------------------------------------------------------------
  // Using the held item
  // ---------------------------------------------------------------------

  /** What using an item does, apart from emptying the slot. */
  datatype ItemUse =
    | Drop(kind: int, position: Vec2)
    | Fire(kind: int, position: Vec2, angle512: int, speed: int, target: int)
    | Confuse
    | Boost
    | NoEffect

  /** The heading straight behind. */
  function Behind(angle512: int): int { Wrap(angle512 + ANGLE_HALF) }

  /** A point `pixels` away from pos along a heading. */
  function Ahead(pos: Vec2, angle512: int, pixels: int): Vec2
  {
    Add(pos, Scale(FromAngle(angle512), IntToFixed(pixels)))
  }

  /** The heading a shell is fired along. */
  function FireAngle(angle512: int, fireForward: bool): int
  {
    if fireForward then angle512 else Behind(angle512)
  }

  /** Items_UsePlayerItem's switch, for a held item and the player's car. */
  function UseOf(kind: int, c: CarValue, fireForward: bool, missileTarget: int,
                 bananaDropOffset: int, bombDropOffset: int): ItemUse
  {
    if kind == ITEM_BANANA then Drop(kind, Ahead(c.position, Behind(c.angle512), bananaDropOffset))
    else if kind == ITEM_BOMB then Drop(kind, Ahead(c.position, Behind(c.angle512), bombDropOffset))
    else if kind == ITEM_OIL then Drop(kind, Ahead(c.position, Behind(c.angle512), HAZARD_DROP_OFFSET))
    else if kind == ITEM_GREEN_SHELL then
      var a := FireAngle(c.angle512, fireForward);
      Fire(kind, Ahead(c.position, a, PROJECTILE_SPAWN_OFFSET), a, FixedMul(c.maxSpeed, GREEN_SHELL_SPEED_MULT), INVALID_CAR_INDEX)
    else if kind == ITEM_RED_SHELL then
      var a := FireAngle(c.angle512, fireForward);
      Fire(kind, Ahead(c.position, a, PROJECTILE_SPAWN_OFFSET), a, FixedMul(c.maxSpeed, RED_SHELL_SPEED_MULT), INVALID_CAR_INDEX)
    else if kind == ITEM_MISSILE then
      Fire(kind, c.position, c.angle512, FixedMul(c.maxSpeed, MISSILE_SPEED_MULT), missileTarget)
    else if kind == ITEM_MUSHROOM then Confuse
    else if kind == ITEM_SPEEDBOOST then Boost
    else NoEffect
  }

  lemma {:induction false} SinBehind(angle512: int)
    ensures Sin(Behind(angle512)) == -Sin(angle512)
  {
    assert Wrap(Behind(angle512)) == Wrap(angle512 + ANGLE_HALF);
    SinHalfTurn(angle512);
  }

  lemma {:induction false} CosBehind(angle512: int)
    ensures Cos(Behind(angle512)) == -Cos(angle512)
  {
    WrapThenAdd(angle512 + ANGLE_HALF, ANGLE_QUARTER);
    SinCongruent(Behind(angle512) + ANGLE_QUARTER, angle512 + ANGLE_HALF + ANGLE_QUARTER);
    SinHalfTurn(angle512);
  }

  /** The heading behind a car points exactly opposite its facing vector. */
  lemma {:induction false} BehindIsOpposite(angle512: int)
    ensures FromAngle(Behind(angle512)) == Neg(FromAngle(angle512))
  {
    SinBehind(angle512);
    CosBehind(angle512);
  }

  /**
   * Hazards are dropped behind the car, against its facing vector; shells
   * fired backward leave the same way; nothing happens with an empty slot;
   * a missile keeps the car's heading and takes the given target.
   */
  lemma UseOfPlacesItems(kind: int, c: CarValue, fireForward: bool, missileTarget: int,
                         bananaDropOffset: int, bombDropOffset: int)
    ensures var u := UseOf(kind, c, fireForward, missileTarget, bananaDropOffset, bombDropOffset);
      (kind == ITEM_NONE ==> u == NoEffect) &&
      (u.Drop? ==>
        u.kind == kind && (kind == ITEM_BANANA || kind == ITEM_BOMB || kind == ITEM_OIL) &&
        exists off :: u.position == Add(c.position, Scale(Neg(FromAngle(c.angle512)), IntToFixed(off)))) &&
      (u.Fire? && kind != ITEM_MISSILE ==>
        u.target == INVALID_CAR_INDEX &&
        u.angle512 == (if fireForward then c.angle512 else Behind(c.angle512)) &&
        u.position == Add(c.position, Scale(FromAngle(u.angle512), IntToFixed(PROJECTILE_SPAWN_OFFSET)))) &&
      (u.Fire? && !fireForward && kind != ITEM_MISSILE ==>
        FromAngle(u.angle512) == Neg(FromAngle(c.angle512))) &&
      (kind == ITEM_MISSILE ==> u == Fire(kind, c.position, c.angle512, FixedMul(c.maxSpeed, MISSILE_SPEED_MULT), missileTarget))
  {
    BehindIsOpposite(c.angle512);
    var u := UseOf(kind, c, fireForward, missileTarget, bananaDropOffset, bombDropOffset);
    if u.Drop? {
      var off := if kind == ITEM_BANANA then bananaDropOffset else if kind == ITEM_BOMB then bombDropOffset else HAZARD_DROP_OFFSET;
      assert u.position == Add(c.position, Scale(Neg(FromAngle(c.angle512)), IntToFixed(off)));
    }
  }

  /**
   * Items_UsePlayerItem. The drop offsets of bananas and bombs and the
   * banana lifetime are parameters; `cars` is the race's car table, read
   * for the missile's target.
   */
  method UsePlayerItem(pool: ItemPool, player: Car, fireForward: bool, race: RaceView, cars: seq<Car>,
                       bananaDropOffset: int, bombDropOffset: int, bananaLifetimeSeconds: int)
    returns (sent: Option<Placement>)
    requires pool.Valid()
    requires |cars| >= MAX_CARS
    requires player.item == ITEM_MISSILE ==> 0 <= race.playerIndex < |cars|
    modifies player, pool.activeItems, pool.playerEffects
    ensures var target :=
        if old(player.item) == ITEM_MISSILE then
          CarInDirection(old(cars[race.playerIndex].position), old(cars[race.playerIndex].angle512), race.playerIndex,
                         old(Positions(CarValues(cars))), MAX_CARS)
        else INVALID_CAR_INDEX;
      var u := UseOf(old(player.item), old(player.State()), fireForward, target, bananaDropOffset, bombDropOffset);
      var items := old(pool.activeItems[..]);
      (u.Drop? ==>
        sent == Broadcast(true, race, Placement(u.kind, u.position, 0, 0, race.playerIndex)) &&
        pool.activeItems[..] == Spawn(items, HazardItem(SlotToFill(items), u.kind, u.position, bananaLifetimeSeconds))) &&
      (u.Fire? ==>
        sent == Broadcast(true, race, Placement(u.kind, u.position, u.angle512, u.speed, race.playerIndex)) &&
        pool.activeItems[..] == Spawn(items,
          ProjectileItem(SlotToFill(items), u.kind, u.position, u.angle512, u.speed, u.target, race.playerIndex, race))) &&
      (!u.Drop? && !u.Fire? ==> sent == None && pool.activeItems[..] == items) &&
      (u.Boost? ==>
        (pool.playerEffects.Value(), player.State()) == Boosted(old(pool.playerEffects.Value()), old(player.State()).(item := ITEM_NONE))) &&
      (!u.Boost? ==> player.State() == old(player.State()).(item := ITEM_NONE)) &&
      (u.Confuse? ==>
        pool.playerEffects.Value() == old(pool.playerEffects.Value()).(confusionActive := true, confusionTimer := MUSHROOM_CONFUSION_DURATION)) &&
      (!u.Confuse? && !u.Boost? ==> pool.playerEffects.Value() == old(pool.playerEffects.Value()))
  {
    sent := None;
    if player.item == ITEM_NONE {
      return;
    }
    var itemType := player.item;
    ghost var target := INVALID_CAR_INDEX;
    if itemType == ITEM_MISSILE {
      target := CarInDirection(cars[race.playerIndex].position, cars[race.playerIndex].angle512, race.playerIndex,
                               Positions(CarValues(cars)), MAX_CARS);
    }
    ghost var u := UseOf(itemType, player.State(), fireForward, target, bananaDropOffset, bombDropOffset);
    var values := CarValues(cars);
    player.item := ITEM_NONE;
    if itemType == ITEM_BANANA || itemType == ITEM_BOMB || itemType == ITEM_OIL {
      var offset := if itemType == ITEM_BANANA then bananaDropOffset else if itemType == ITEM_BOMB then bombDropOffset else HAZARD_DROP_OFFSET;
      var backwardAngle := Wrap(player.angle512 + ANGLE_HALF);
      var backward := FromAngle(backwardAngle);
      var dropPos := Add(player.position, Scale(backward, IntToFixed(offset)));
      sent := PlaceHazard(pool, itemType, dropPos, race, bananaLifetimeSeconds);
    } else if itemType == ITEM_GREEN_SHELL || itemType == ITEM_RED_SHELL {
      var fireAngle := if fireForward then player.angle512 else Wrap(player.angle512 + ANGLE_HALF);
      var forward := FromAngle(fireAngle);
      var spawnPos := Add(player.position, Scale(forward, IntToFixed(PROJECTILE_SPAWN_OFFSET)));
      var mult := if itemType == ITEM_GREEN_SHELL then GREEN_SHELL_SPEED_MULT else RED_SHELL_SPEED_MULT;
      var shellSpeed := FixedMul(player.maxSpeed, mult);
      sent := FireProjectile(pool, itemType, spawnPos, fireAngle, shellSpeed, INVALID_CAR_INDEX, race);
    } else if itemType == ITEM_MISSILE {
      var targetIndex := FindCarAhead(1, MAX_CARS, race.playerIndex, values);
      var missileSpeed := FixedMul(player.maxSpeed, MISSILE_SPEED_MULT);
      sent := FireProjectile(pool, ITEM_MISSILE, player.position, player.angle512, missileSpeed, targetIndex, race);
    } else if itemType == ITEM_MUSHROOM {
      pool.playerEffects.ApplyConfusion();
    } else if itemType == ITEM_SPEEDBOOST {
      pool.playerEffects.ApplySpeedBoost(player);
    }
  }
}
