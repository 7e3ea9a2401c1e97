/**
 * The race controller of gameplay/gameplay_logic.c: the start countdown,
 * the per-car checkpoint and finish-line trackers, the spawn grid, the wall
 * push and map clamp, the camera scroll and the finish delay.
 *
 * The five parallel MAX_CARS arrays of the C file (wasAboveFinishLine,
 * hasCompletedFirstCrossing, cpState, wasOnLeftSide, wasOnTopSide) are one
 * array of LapTracker records here; every access in the source reads or
 * writes the same index in all of them.
 */
module GameplayLogic {
  import opened FixedMath
  import opened GameTypes
  import opened CarPhysics
  import WallCollision

  const COUNTDOWN_NUMBER_DURATION: int := 60
  const COUNTDOWN_GO_DURATION: int := 60
  const CAR_SPRITE_CENTER_OFFSET: int := 16
  const QUAD_OFFSET: int := 256
  const QUADRANT_GRID_SIZE: int := 3
  const FINISH_DELAY_FRAMES: int := 5 * 60
  const COLLISION_LOCKOUT_FRAMES: int := 60
  /** ANGLE_UP = ANGLE_HALF + ANGLE_QUARTER. */
  const START_FACING_ANGLE: int := 384
  const ACCEL_50CC: int := 256
  const FRICTION_50CC: int := 240
  const OFF_MAP: int := -1000
  const OFF_MAP_RANK: int := 99

  // ---------------------------------------------------------------------
  // Countdown
  // ---------------------------------------------------------------------

  datatype CountdownState = Countdown3 | Countdown2 | Countdown1 | CountdownGo | CountdownFinished

  /** countdownState, countdownTimer and raceCanStart together. */
  datatype Countdown = Countdown(state: CountdownState, timer: int, raceCanStart: bool)

  const COUNTDOWN_START: Countdown := Countdown(Countdown3, 0, false)

  predicate CountdownActive(c: Countdown) { c.state != CountdownFinished }

  /** One updateCountdown call: the timer ticks first, then the switch on the state. */
  function CountdownStep(c: Countdown): (r: Countdown)
    ensures r.raceCanStart != c.raceCanStart ==> c.state == CountdownGo && r.state == CountdownFinished
    ensures c.state == CountdownFinished ==> r.state == CountdownFinished
  {
    var t := c.timer + 1;
    match c.state
    case Countdown3 => if t >= COUNTDOWN_NUMBER_DURATION then c.(state := Countdown2, timer := 0) else c.(timer := t)
    case Countdown2 => if t >= COUNTDOWN_NUMBER_DURATION then c.(state := Countdown1, timer := 0) else c.(timer := t)
    case Countdown1 => if t >= COUNTDOWN_NUMBER_DURATION then c.(state := CountdownGo, timer := 0) else c.(timer := t)
    case CountdownGo => if t >= COUNTDOWN_GO_DURATION then Countdown(CountdownFinished, 0, true) else c.(timer := t)
    case CountdownFinished => c.(timer := t)
  }

  /** n successive updateCountdown calls. */
  function CountdownAfter(c: Countdown, n: nat): Countdown
    decreases n
  {
    if n == 0 then c else CountdownAfter(CountdownStep(c), n - 1)
  }

  lemma {:induction false} CountdownCompose(c: Countdown, a: nat, b: nat)
    ensures CountdownAfter(c, a + b) == CountdownAfter(CountdownAfter(c, a), b)
    decreases a
  {
    if a > 0 {
      CountdownCompose(CountdownStep(c), a - 1, b);
    }
  }

  /** Within a phase the state holds and the timer counts the calls. */
  lemma {:induction false} CountdownHolds(c: Countdown, k: nat)
    requires c.state != CountdownFinished && 0 <= c.timer
    requires c.timer + k < 60
    ensures CountdownAfter(c, k) == c.(timer := c.timer + k)
    decreases k
  {
    if k > 0 {
      CountdownHolds(CountdownStep(c), k - 1);
    }
  }

  /** FINISHED is absorbing; only its timer keeps counting. */
  lemma {:induction false} CountdownFinishedStays(c: Countdown, k: nat)
    requires c.state == CountdownFinished
    ensures CountdownAfter(c, k) == c.(timer := c.timer + k)
    decreases k
  {
    if k > 0 {
      CountdownFinishedStays(CountdownStep(c), k - 1);
    }
  }

  /** A phase entered with timer 0 ends after exactly 60 calls. */
  lemma CountdownPhaseEnds(c: Countdown)
    requires c.state != CountdownFinished && c.timer == 0
    ensures CountdownAfter(c, 60) == CountdownStep(c.(timer := 59))
  {
    CountdownCompose(c, 59, 1);
    CountdownHolds(c, 59);
  }

  /** Where the countdown from Race_Init stands after n calls. */
  function CountdownAt(n: nat): Countdown
  {
    if n < 60 then Countdown(Countdown3, n, false)
    else if n < 120 then Countdown(Countdown2, n - 60, false)
    else if n < 180 then Countdown(Countdown1, n - 120, false)
    else if n < 240 then Countdown(CountdownGo, n - 180, false)
    else Countdown(CountdownFinished, n - 240, true)
  }

  /** n calls from the start state reach CountdownAt(n). */
  lemma {:induction false} CountdownAfterIsAt(n: nat)
    ensures CountdownAfter(COUNTDOWN_START, n) == CountdownAt(n)
    decreases n
  {
    if n > 0 {
      CountdownAfterIsAt(n - 1);
      CountdownCompose(COUNTDOWN_START, n - 1, 1);
    }
  }

  /** Inside the phase that starts at call base in state c, the timer counts the calls since base. */
  lemma CountdownInPhase(base: nat, c: Countdown, n: nat)
    requires CountdownAfter(COUNTDOWN_START, base) == c && c.state != CountdownFinished && c.timer == 0
    requires base <= n < base + 60
    ensures CountdownAfter(COUNTDOWN_START, n) == c.(timer := n - base)
  {
    CountdownCompose(COUNTDOWN_START, base, n - base);
    CountdownHolds(c, n - base);
  }

  /**
   * The whole countdown from Race_Init: 3, 2, 1 and GO last 60 calls each,
   * the timer restarting at every change; from call 240 on the countdown
   * is FINISHED and the race may start, never before.
   */
  lemma CountdownTimeline(n: nat)
    ensures n < 60 ==> CountdownAfter(COUNTDOWN_START, n) == Countdown(Countdown3, n, false)
    ensures 60 <= n < 120 ==> CountdownAfter(COUNTDOWN_START, n) == Countdown(Countdown2, n - 60, false)
    ensures 120 <= n < 180 ==> CountdownAfter(COUNTDOWN_START, n) == Countdown(Countdown1, n - 120, false)
    ensures 180 <= n < 240 ==> CountdownAfter(COUNTDOWN_START, n) == Countdown(CountdownGo, n - 180, false)
    ensures 240 <= n ==> CountdownAfter(COUNTDOWN_START, n) == Countdown(CountdownFinished, n - 240, true)
    ensures CountdownActive(CountdownAfter(COUNTDOWN_START, n)) <==> n < 240
    ensures CountdownAfter(COUNTDOWN_START, n).raceCanStart <==> n >= 240
  {
    CountdownAfterIsAt(n);
  }

  // ---------------------------------------------------------------------
  // Checkpoints and the finish line
  // ---------------------------------------------------------------------

  datatype CheckpointState = CpStart | CpNeedLeft | CpNeedDown | CpNeedRight | CpReadyForLap

  /** The C enum value: how far round the circuit the car has got. */
  function Progress(s: CheckpointState): nat
  {
    match s
    case CpStart => 0
    case CpNeedLeft => 1
    case CpNeedDown => 2
    case CpNeedRight => 3
    case CpReadyForLap => 4
  }

  /** One car's entry in the five tracking arrays. */
  datatype LapTracker = LapTracker(wasAboveFinishLine: bool, hasCompletedFirstCrossing: bool,
                                   cpState: CheckpointState, wasOnLeftSide: bool, wasOnTopSide: bool)

  /** What initCarAtSpawn writes at the spawn index. */
  const FRESH_TRACKER: LapTracker := LapTracker(false, false, CpStart, false, false)

  /** The sprite centre in whole pixels. */
  function Centre(pos: Vec2): (int, int)
  {
    (FixedToInt(pos.x) + CAR_SPRITE_CENTER_OFFSET, FixedToInt(pos.y) + CAR_SPRITE_CENTER_OFFSET)
  }

  /**
   * checkCheckpointProgression for a car centred at (carX, carY): the state
   * waits in turn for the car to enter the top half, the left half, the
   * bottom half and the right half, moving on by at most one step, and the
   * current sides are always recorded.
   */
  function CheckpointUpdate(t: LapTracker, carX: int, carY: int): (r: LapTracker)
    ensures r.wasOnLeftSide == (carX < CHECKPOINT_DIVIDE_X) && r.wasOnTopSide == (carY < CHECKPOINT_DIVIDE_Y)
    ensures r.wasAboveFinishLine == t.wasAboveFinishLine && r.hasCompletedFirstCrossing == t.hasCompletedFirstCrossing
    ensures Progress(r.cpState) == Progress(t.cpState) || Progress(r.cpState) == Progress(t.cpState) + 1
    ensures t.cpState == CpStart && r.cpState != CpStart ==> !t.wasOnTopSide && carY < CHECKPOINT_DIVIDE_Y
    ensures t.cpState == CpNeedLeft && r.cpState != CpNeedLeft ==> !t.wasOnLeftSide && carX < CHECKPOINT_DIVIDE_X
    ensures t.cpState == CpNeedDown && r.cpState != CpNeedDown ==> t.wasOnTopSide && carY >= CHECKPOINT_DIVIDE_Y
    ensures t.cpState == CpNeedRight && r.cpState != CpNeedRight ==> t.wasOnLeftSide && carX >= CHECKPOINT_DIVIDE_X
    ensures t.cpState == CpReadyForLap ==> r.cpState == CpReadyForLap
  {
    var isOnLeftSide := carX < CHECKPOINT_DIVIDE_X;
    var isOnTopSide := carY < CHECKPOINT_DIVIDE_Y;
    var next := match t.cpState
      case CpStart => if !t.wasOnTopSide && isOnTopSide then CpNeedLeft else CpStart
      case CpNeedLeft => if !t.wasOnLeftSide && isOnLeftSide then CpNeedDown else CpNeedLeft
      case CpNeedDown => if t.wasOnTopSide && !isOnTopSide then CpNeedRight else CpNeedDown
      case CpNeedRight => if t.wasOnLeftSide && !isOnLeftSide then CpReadyForLap else CpNeedRight
      case CpReadyForLap => CpReadyForLap;
    t.(cpState := next, wasOnLeftSide := isOnLeftSide, wasOnTopSide := isOnTopSide)
  }

  /** checkCheckpointProgression over a sequence of sprite centres, one call each. */
  function CheckpointRun(t: LapTracker, centres: seq<(int, int)>): LapTracker
    decreases |centres|
  {
    if centres == [] then t
    else CheckpointRun(CheckpointUpdate(t, centres[0].0, centres[0].1), centres[1..])
  }

  /**
   * Progress never goes back and grows by at most one per call, so a car
   * starting at CP_STATE_START needs at least four calls to be ready for a lap.
   */
  lemma {:induction false} CheckpointRunBound(t: LapTracker, centres: seq<(int, int)>)
    ensures Progress(t.cpState) <= Progress(CheckpointRun(t, centres).cpState) <= Progress(t.cpState) + |centres|
    ensures t.cpState == CpStart && |centres| < 4 ==> CheckpointRun(t, centres).cpState != CpReadyForLap
    decreases |centres|
  {
    if centres != [] {
      CheckpointRunBound(CheckpointUpdate(t, centres[0].0, centres[0].1), centres[1..]);
    }
  }

  /**
   * Four sprite centres, one per quarter of the map taken anticlockwise
   * from the spawn side, bring a freshly spawned car to READY_FOR_LAP.
   */
  lemma OneCircuitIsReady()
    ensures CheckpointRun(FRESH_TRACKER, [(900, 300), (300, 300), (300, 800), (900, 800)]).cpState == CpReadyForLap
  {
    var cs: seq<(int, int)> := [(900, 300), (300, 300), (300, 800), (900, 800)];
    var t1 := CheckpointUpdate(FRESH_TRACKER, 900, 300);
    var t2 := CheckpointUpdate(t1, 300, 300);
    var t3 := CheckpointUpdate(t2, 300, 800);
    var t4 := CheckpointUpdate(t3, 900, 800);
    assert t4.cpState == CpReadyForLap;
    assert cs[1..][1..][1..][1..] == [];
    assert CheckpointRun(t4, []) == t4;
  }

  /**
   * checkFinishLineCross for a car centred at row carY: the first upward
   * crossing of the line is only consumed; a later one completes a lap when
   * the checkpoints are done, and then sends the car back to START.
   */
  function FinishLineUpdate(t: LapTracker, carY: int): (r: (LapTracker, bool))
    ensures r.1 <==> !t.wasAboveFinishLine && carY < FINISH_LINE_Y && t.hasCompletedFirstCrossing &&
                     t.cpState == CpReadyForLap
    ensures r.0.wasAboveFinishLine == (carY < FINISH_LINE_Y)
    ensures r.0.hasCompletedFirstCrossing == (t.hasCompletedFirstCrossing || (!t.wasAboveFinishLine && carY < FINISH_LINE_Y))
    ensures r.0.cpState == (if r.1 then CpStart else t.cpState)
    ensures r.0.wasOnLeftSide == t.wasOnLeftSide && r.0.wasOnTopSide == t.wasOnTopSide
  {
    var isNowAbove := carY < FINISH_LINE_Y;
    var crossedLine := !t.wasAboveFinishLine && isNowAbove;
    var t1 := t.(wasAboveFinishLine := isNowAbove);
    if crossedLine && !t.hasCompletedFirstCrossing then (t1.(hasCompletedFirstCrossing := true), false)
    else if crossedLine && t.cpState == CpReadyForLap then (t1.(cpState := CpStart), true)
    else (t1, false)
  }

  // ---------------------------------------------------------------------
  // Spawning
  // ---------------------------------------------------------------------

  /** initCarAtSpawn's writes to the car; the name is kept. */
  function SpawnValue(v: CarValue, spawnPosition: int): (r: CarValue)
    ensures spawnPosition >= 0 ==> r.rank == spawnPosition + 1
    ensures spawnPosition < 0 ==> r.position == FromInt(OFF_MAP, OFF_MAP) && r.rank == OFF_MAP_RANK
    ensures r.speed == 0 && r.lap == 0 && r.item == ITEM_NONE && r.carname == v.carname
  {
    var base := v.(speed := 0, angle512 := START_FACING_ANGLE, lap := 0, lastCheckpoint := 0, item := ITEM_NONE,
                   maxSpeed := SPEED_50CC, accelRate := ACCEL_50CC, friction := FRICTION_50CC);
    if spawnPosition < 0 then base.(position := FromInt(OFF_MAP, OFF_MAP), rank := OFF_MAP_RANK)
    else
      var column := spawnPosition % 2;
      base.(position := FromInt(START_LINE_X + column * 32, START_LINE_Y + spawnPosition * 24),
            rank := spawnPosition + 1)
  }

  /**
   * The spawn grid: two columns 32 px apart, rows 24 px apart, every slot
   * distinct, and every slot in the bottom-right quarter below the finish
   * line, which is what the fresh tracker written beside it records.
   */
  lemma SpawnGrid(v: CarValue, w: CarValue, p: int, q: int)
    requires 0 <= p && 0 <= q
    ensures SpawnValue(v, p).position == FromInt(904 + 32 * (p % 2), 580 + 24 * p)
    ensures p != q ==> SpawnValue(v, p).position != SpawnValue(w, q).position
    ensures var (x, y) := Centre(SpawnValue(v, p).position);
      x >= CHECKPOINT_DIVIDE_X && y >= CHECKPOINT_DIVIDE_Y && y >= FINISH_LINE_Y
  {
    FixedRoundTrip(904 + 32 * (p % 2));
    FixedRoundTrip(580 + 24 * p);
    if p != q {
      assert IntToFixed(580 + 24 * p) != IntToFixed(580 + 24 * q) by {
        FixedRoundTrip(580 + 24 * q);
      }
    }
  }

  /** The ids of the connected players in ascending order (connectedIndices). */
  function ConnectedIds(connected: seq<bool>): (ids: seq<int>)
    ensures |ids| <= |connected|
    ensures forall k | 0 <= k < |ids| :: 0 <= ids[k] < |connected| && connected[ids[k]]
    ensures forall k, l | 0 <= k < l < |ids| :: ids[k] < ids[l]
    decreases |connected|
  {
    if connected == [] then []
    else
      var front := connected[..|connected| - 1];
      assert forall i | 0 <= i < |front| :: front[i] == connected[i];
      ConnectedIds(front) + (if connected[|connected| - 1] then [|connected| - 1] else [])
  }

  lemma {:induction false} ConnectedIdsPrefix(connected: seq<bool>, m: nat)
    requires m <= |connected|
    ensures ConnectedIds(connected[..m]) <= ConnectedIds(connected)
    decreases |connected|
  {
    if m < |connected| {
      var front := connected[..|connected| - 1];
      assert front[..m] == connected[..m];
      ConnectedIdsPrefix(front, m);
    } else {
      assert connected[..m] == connected;
    }
  }

  lemma ConnectedIdsSnoc(c: seq<bool>, b: bool)
    ensures ConnectedIds(c + [b]) == ConnectedIds(c) + (if b then [|c|] else [])
  {
    assert (c + [b])[..|c|] == c;
  }

  /** The spawn position Race_InitMultiplayerCars gives slot i: its rank among connected ids, or -1. */
  function SpawnOf(connected: seq<bool>, i: int): int
    requires 0 <= i < |connected|
  {
    if connected[i] then |ConnectedIds(connected[..i])| else -1
  }

  /** A connected slot's spawn position indexes its own id in connectedIndices. */
  lemma SpawnOfIndexes(connected: seq<bool>, i: int)
    requires 0 <= i < |connected| && connected[i]
    ensures 0 <= SpawnOf(connected, i) < |ConnectedIds(connected)|
    ensures ConnectedIds(connected)[SpawnOf(connected, i)] == i
  {
    assert connected[..i + 1][..i] == connected[..i];
    assert ConnectedIds(connected[..i + 1]) == ConnectedIds(connected[..i]) + [i];
    ConnectedIdsPrefix(connected, i + 1);
  }

  /** Connected players get distinct spawn positions, in the order of their ids, all below the count. */
  lemma SpawnOrder(connected: seq<bool>, i: int, j: int)
    requires 0 <= i < j < |connected| && connected[i] && connected[j]
    ensures 0 <= SpawnOf(connected, i) < SpawnOf(connected, j) < |ConnectedIds(connected)|
  {
    SpawnOfIndexes(connected, i);
    SpawnOfIndexes(connected, j);
    var ids := ConnectedIds(connected);
    var a, b := SpawnOf(connected, i), SpawnOf(connected, j);
    assert ids[a] < ids[b];
  }

  /** The tracker array after the spawn loop: the first n entries are fresh. */
  function ResetTrackers(ts: seq<LapTracker>, n: int): (r: seq<LapTracker>)
    ensures |r| == |ts|
    ensures forall k | 0 <= k < |ts| :: r[k] == (if k < n then FRESH_TRACKER else ts[k])
  {
    seq(|ts|, k requires 0 <= k < |ts| => if k < n then FRESH_TRACKER else ts[k])
  }

  /** Resetting one more tracker: the next slot becomes fresh. */
  lemma ResetTrackersStep(ts: seq<LapTracker>, n: int)
    requires 0 <= n < |ts|
    ensures ResetTrackers(ts, n)[n := FRESH_TRACKER] == ResetTrackers(ts, n + 1)
  {
  }

  // ---------------------------------------------------------------------
  // Laps, quadrants, clamping and scrolling
  // ---------------------------------------------------------------------

  /** MapLaps. */
  function MapLaps(raceMap: Map): nat
  {
    match raceMap
    case NoneMap => 0
    case ScorchingSands => 2
    case AlpinRush => 10
    case NeonCircuit => 10
  }

  /** Race_ConfigureLaps: multiplayer on Scorching Sands races 5 laps, otherwise the map's count. */
  function ConfiguredLaps(raceMap: Map, multiplayer: bool): nat
  {
    if multiplayer && raceMap == ScorchingSands then 5 else MapLaps(raceMap)
  }

  /** Only the missing map has no laps, and multiplayer never races fewer laps than single player. */
  lemma LapCounts(raceMap: Map)
    ensures ConfiguredLaps(raceMap, false) == 0 <==> raceMap == NoneMap
    ensures ConfiguredLaps(raceMap, true) == 0 <==> raceMap == NoneMap
    ensures ConfiguredLaps(raceMap, false) <= ConfiguredLaps(raceMap, true)
    ensures ConfiguredLaps(raceMap, true) != ConfiguredLaps(raceMap, false) <==> raceMap == ScorchingSands
  {
  }

  /** determineCarQuadrant: the 3 x 3 quadrant grid, row-major. */
  function CarQuadrant(x: int, y: int): (q: int)
    ensures 0 <= q <= 8
    ensures (x < QUAD_OFFSET <==> q % 3 == 0) && (x >= 2 * QUAD_OFFSET <==> q % 3 == 2)
    ensures (y < QUAD_OFFSET <==> q / 3 == 0) && (y >= 2 * QUAD_OFFSET <==> q / 3 == 2)
  {
    var col := if x < QUAD_OFFSET then 0 else if x < 2 * QUAD_OFFSET then 1 else 2;
    var row := if y < QUAD_OFFSET then 0 else if y < 2 * QUAD_OFFSET then 1 else 2;
    row * QUADRANT_GRID_SIZE + col
  }

  /** The normal that pushes a car centred at (cx, cy) off a wall; (0, 0) means no push. */
  function WallNormal(cx: int, cy: int): (n: (int, int))
    ensures (n.0 == 0 && -1 <= n.1 <= 1) || (n.1 == 0 && -1 <= n.0 <= 1)
  {
    var quad := CarQuadrant(cx, cy);
    if WallCollision.Colliding(cx, cy, CAR_RADIUS, quad) then WallCollision.NormalOf(cx, cy, quad) else (0, 0)
  }

  /** The wall normal at a car position's sprite centre. */
  function WallPush(pos: Vec2): (n: (int, int))
  {
    var c := Centre(pos);
    WallNormal(c.0, c.1)
  }

  /** The player's car after a frame: updated, then pushed off any wall it hits and clamped to the map. */
  function MovedCar(s: CarValue): CarValue
  {
    var u := AfterUpdate(s);
    ClampedValue(u, WallPush(u.position))
  }

  /** The collision lockout after a frame: restarted by a wall push, then counted down towards 0. */
  function LockoutAfter(lock: int, s: CarValue): int
  {
    var u := AfterUpdate(s);
    var l := if WallPush(u.position) == (0, 0) then lock else COLLISION_LOCKOUT_FRAMES;
    if l > 0 then l - 1 else l
  }

  /** The wall test is taken at the sprite centre (carX, carY). */
  lemma WallPushAt(pos: Vec2, carX: int, carY: int)
    requires carX == FixedToInt(pos.x) + CAR_SPRITE_CENTER_OFFSET && carY == FixedToInt(pos.y) + CAR_SPRITE_CENTER_OFFSET
    ensures WallPush(pos) == WallNormal(carX, carY)
  {
    assert Centre(pos) == (carX, carY);
  }

  const MIN_POS: int := IntToFixed(-CAR_SPRITE_CENTER_OFFSET)
  const MAX_POS: int := IntToFixed(MAP_SIZE - CAR_SPRITE_CENTER_OFFSET)

  /** One coordinate of the map-bounds clamp. */
  function ClampCoord(v: int): (r: int)
    ensures MIN_POS <= r <= MAX_POS
    ensures MIN_POS <= v <= MAX_POS ==> r == v
    ensures v < MIN_POS ==> r == MIN_POS
    ensures v > MAX_POS ==> r == MAX_POS
  {
    if v < MIN_POS then MIN_POS else if v > MAX_POS then MAX_POS else v
  }

  /**
   * clampToMapBounds on the car's values, given the wall normal n at its
   * centre (WallPush): a non-zero normal pushes the car CAR_RADIUS pixels
   * along it and stops it; then each coordinate is clamped into
   * [IntToFixed(-16), IntToFixed(1008)].
   */
  function ClampedValue(v: CarValue, n: (int, int)): (r: CarValue)
    ensures r == v.(position := r.position, speed := r.speed)
    ensures MIN_POS <= r.position.x <= MAX_POS && MIN_POS <= r.position.y <= MAX_POS
    ensures n == (0, 0) ==> r.speed == v.speed
    ensures n != (0, 0) ==> r.speed == 0
  {
    var pushed := if n != (0, 0) then Add(v.position, FromInt(n.0 * CAR_RADIUS, n.1 * CAR_RADIUS)) else v.position;
    v.(position := Vec2(ClampCoord(pushed.x), ClampCoord(pushed.y)),
       speed := if n != (0, 0) then 0 else v.speed)
  }

  /** A car already inside the map and clear of every wall is left exactly as it was. */
  lemma ClampKeepsInsideCar(v: CarValue)
    requires WallPush(v.position) == (0, 0)
    requires MIN_POS <= v.position.x <= MAX_POS && MIN_POS <= v.position.y <= MAX_POS
    ensures ClampedValue(v, WallPush(v.position)) == v
  {
  }

  function ClampScroll(s: int, max: int): int
  {
    if s < 0 then 0 else if s > max then max else s
  }

  /**
   * Race_CalculateScroll: the camera centres the car's sprite and is kept
   * within [0, MAX_SCROLL_X] x [0, MAX_SCROLL_Y].
   */
  function Scroll(pos: Vec2): (r: (int, int))
    ensures 0 <= r.0 <= MAX_SCROLL_X && 0 <= r.1 <= MAX_SCROLL_Y
    ensures var (cx, cy) := Centre(pos);
      (0 <= cx - SCREEN_WIDTH / 2 <= MAX_SCROLL_X ==> r.0 == cx - SCREEN_WIDTH / 2) &&
      (0 <= cy - SCREEN_HEIGHT / 2 <= MAX_SCROLL_Y ==> r.1 == cy - SCREEN_HEIGHT / 2)
  {
    var (cx, cy) := Centre(pos);
    (ClampScroll(cx - SCREEN_WIDTH / 2, MAX_SCROLL_X), ClampScroll(cy - SCREEN_HEIGHT / 2, MAX_SCROLL_Y))
  }

  /** Scrolling never moves the camera against the car. */
  lemma ScrollMonotone(a: Vec2, b: Vec2)
    requires a.x <= b.x && a.y <= b.y
    ensures Scroll(a).0 <= Scroll(b).0 && Scroll(a).1 <= Scroll(b).1
  {
    assert FixedToInt(a.x) <= FixedToInt(b.x);
    assert FixedToInt(a.y) <= FixedToInt(b.y);
  }

  // ---------------------------------------------------------------------
  // The module state
  // ---------------------------------------------------------------------

  /** The scalar part of the module state (RaceState without its arrays, plus the statics). */
  datatype RaceVars = RaceVars(
    raceStarted: bool, raceFinished: bool, currentMap: Map, gameMode: GameMode,
    carCount: int, playerIndex: int, totalLaps: int, checkpointCount: int,
    finishDelayTimer: int, finalTimeMin: int, finalTimeSec: int, finalTimeMsec: int,
    isMultiplayerRace: bool, countdown: Countdown)

  class RaceController {
    var raceStarted: bool
    var raceFinished: bool
    var currentMap: Map
    var gameMode: GameMode
    var carCount: int
    var playerIndex: int
    var totalLaps: int
    var checkpointCount: int
    var finishDelayTimer: int
    var finalTimeMin: int
    var finalTimeSec: int
    var finalTimeMsec: int
    var isMultiplayerRace: bool
    var countdownState: CountdownState
    var countdownTimer: int
    var raceCanStart: bool
    const cars: seq<Car>
    const trackers: array<LapTracker>
    const collisionLockoutTimer: array<int>

    function Vars(): RaceVars
      reads this
    {
      RaceVars(raceStarted, raceFinished, currentMap, gameMode, carCount, playerIndex, totalLaps, checkpointCount,
               finishDelayTimer, finalTimeMin, finalTimeSec, finalTimeMsec, isMultiplayerRace,
               Countdown(countdownState, countdownTimer, raceCanStart))
    }

    ghost predicate Valid()
      reads this
    {
      |cars| == MAX_CARS && (forall i, j | 0 <= i < j < |cars| :: cars[i] != cars[j]) &&
      trackers.Length == MAX_CARS && collisionLockoutTimer.Length == MAX_CARS &&
      0 <= playerIndex < MAX_CARS && 0 <= carCount <= MAX_CARS
    }

    /** The zero-initialised statics of gameplay_logic.c, over the given car objects. */
    constructor(cars: seq<Car>)
      requires |cars| == MAX_CARS && forall i, j | 0 <= i < j < |cars| :: cars[i] != cars[j]
      ensures Valid() && this.cars == cars
      ensures Vars() == RaceVars(false, false, NoneMap, SinglePlayer, 0, 0, 0, 0, 0, 0, 0, 0, false, COUNTDOWN_START)
      ensures forall k | 0 <= k < MAX_CARS :: trackers[k] == FRESH_TRACKER && collisionLockoutTimer[k] == 0
      ensures fresh(trackers) && fresh(collisionLockoutTimer)
    {
      raceStarted, raceFinished, currentMap, gameMode := false, false, NoneMap, SinglePlayer;
      carCount, playerIndex, totalLaps, checkpointCount := 0, 0, 0, 0;
      finishDelayTimer, finalTimeMin, finalTimeSec, finalTimeMsec := 0, 0, 0, 0;
      isMultiplayerRace := false;
      countdownState, countdownTimer, raceCanStart := Countdown3, 0, false;
      this.cars := cars;
      trackers := new LapTracker[MAX_CARS](_ => FRESH_TRACKER);
      collisionLockoutTimer := new int[MAX_CARS](_ => 0);
    }

    /** Race_IsActive. */
    predicate IsActive()
      reads this
    {
      raceStarted && !raceFinished
    }

    /** Race_IsCountdownActive. */
    predicate IsCountdownActive()
      reads this
    {
      CountdownActive(Vars().countdown)
    }

    /** updateCountdown (Race_UpdateCountdown); starting the race timer is hardware. */
    method UpdateCountdown()
      modifies this
      ensures Vars() == old(Vars()).(countdown := CountdownStep(old(Vars().countdown)))
    {
      countdownTimer := countdownTimer + 1;
      match countdownState {
        case Countdown3 =>
          if countdownTimer >= COUNTDOWN_NUMBER_DURATION {
            countdownState := Countdown2;
            countdownTimer := 0;
          }
        case Countdown2 =>
          if countdownTimer >= COUNTDOWN_NUMBER_DURATION {
            countdownState := Countdown1;
            countdownTimer := 0;
          }
        case Countdown1 =>
          if countdownTimer >= COUNTDOWN_NUMBER_DURATION {
            countdownState := CountdownGo;
            countdownTimer := 0;
          }
        case CountdownGo =>
          if countdownTimer >= COUNTDOWN_GO_DURATION {
            countdownState := CountdownFinished;
            countdownTimer := 0;
            raceCanStart := true;
          }
        case CountdownFinished =>
      }
    }

    /** Race_MarkAsCompleted; stopping the race timer is hardware. */
    method MarkAsCompleted(min: int, sec: int, msec: int)
      modifies this
      ensures Vars() == old(Vars()).(raceFinished := true, finishDelayTimer := FINISH_DELAY_FRAMES,
                                     finalTimeMin := min, finalTimeSec := sec, finalTimeMsec := msec)
      ensures !IsActive()
    {
      raceFinished := true;
      finishDelayTimer := FINISH_DELAY_FRAMES;
      finalTimeMin := min;
      finalTimeSec := sec;
      finalTimeMsec := msec;
    }

    /** initCarAtSpawn: the tracker reset happens at the spawn index, not at the car's slot. */
    method InitCarAtSpawn(car: Car, spawnPosition: int)
      requires Valid() && spawnPosition < MAX_CARS
      modifies car, trackers
      ensures car.State() == SpawnValue(old(car.State()), spawnPosition)
      ensures trackers[..] == if spawnPosition < 0 then old(trackers[..])
                              else old(trackers[..])[spawnPosition := FRESH_TRACKER]
    {
      if spawnPosition < 0 {
        car.position := FromInt(OFF_MAP, OFF_MAP);
        car.speed := 0;
        car.angle512 := START_FACING_ANGLE;
        car.lap := 0;
        car.lastCheckpoint := 0;
        car.rank := OFF_MAP_RANK;
        car.item := ITEM_NONE;
        car.maxSpeed := SPEED_50CC;
        car.accelRate := ACCEL_50CC;
        car.friction := FRICTION_50CC;
        return;
      }
      var column := spawnPosition % 2;
      car.position := FromInt(START_LINE_X + column * 32, START_LINE_Y + spawnPosition * 24);
      car.speed := 0;
      car.angle512 := START_FACING_ANGLE;
      car.lap := 0;
      car.lastCheckpoint := 0;
      car.rank := spawnPosition + 1;
      car.item := ITEM_NONE;
      car.maxSpeed := SPEED_50CC;
      car.accelRate := ACCEL_50CC;
      car.friction := FRICTION_50CC;
      trackers[spawnPosition] := FRESH_TRACKER;
    }

    /** The connectedIndices loop of Race_InitMultiplayerCars. */
    static method CollectConnected(connected: seq<bool>) returns (connectedIndices: seq<int>)
      ensures connectedIndices == ConnectedIds(connected)
    {
      connectedIndices := [];
      var i := 0;
      while i < |connected|
        invariant 0 <= i <= |connected|
        invariant connectedIndices == ConnectedIds(connected[..i])
      {
        assert connected[..i + 1][..i] == connected[..i];
        if connected[i] {
          connectedIndices := connectedIndices + [i];
        }
        i := i + 1;
      }
      assert connected[..i] == connected;
    }

    /** The inner search of Race_InitMultiplayerCars: the index of i in connectedIndices. */
    static method FindSpawnPosition(connected: seq<bool>, connectedIndices: seq<int>, i: int) returns (spawnPosition: int)
      requires 0 <= i < |connected| && connected[i] && connectedIndices == ConnectedIds(connected)
      ensures spawnPosition == SpawnOf(connected, i)
    {
      SpawnOfIndexes(connected, i);
      spawnPosition := 0;
      var j := 0;
      while j < |connectedIndices|
        invariant 0 <= j <= |connectedIndices|
        invariant forall k | 0 <= k < j :: connectedIndices[k] != i
      {
        if connectedIndices[j] == i {
          spawnPosition := j;
          break;
        }
        j := j + 1;
      }
      assert spawnPosition == SpawnOf(connected, i);
    }

    /** One iteration of the spawn loop of Race_InitMultiplayerCars. */
    method SpawnSlot(connected: seq<bool>, connectedIndices: seq<int>, i: int)
      requires Valid() && |connected| == MAX_CARS && 0 <= i < MAX_CARS
      requires connectedIndices == ConnectedIds(connected)
      modifies cars[i], trackers, collisionLockoutTimer
      ensures cars[i].State() == SpawnValue(old(cars[i].State()), SpawnOf(connected, i))
      ensures trackers[..] == if connected[i] then old(trackers[..])[SpawnOf(connected, i) := FRESH_TRACKER]
                              else old(trackers[..])
      ensures collisionLockoutTimer[..] == old(collisionLockoutTimer[..])[i := 0]
    {
      if connected[i] {
        var spawnPosition := FindSpawnPosition(connected, connectedIndices, i);
        SpawnOfIndexes(connected, i);
        InitCarAtSpawn(cars[i], spawnPosition);
      } else {
        InitCarAtSpawn(cars[i], -1);
      }
      collisionLockoutTimer[i] := 0;
    }

    /**
     * Race_InitMultiplayerCars: all MAX_CARS cars race; connected slots
     * spawn at their rank among connected ids, the others off the map.
     */
    method InitMultiplayerCars(myPlayerId: int, connected: seq<bool>)
      requires Valid() && |connected| == MAX_CARS && 0 <= myPlayerId < MAX_CARS
      modifies this, cars, trackers, collisionLockoutTimer
      ensures Valid()
      ensures Vars() == old(Vars()).(playerIndex := myPlayerId, carCount := MAX_CARS)
      ensures forall k | 0 <= k < MAX_CARS :: cars[k].State() == SpawnValue(old(cars[k].State()), SpawnOf(connected, k))
      ensures trackers[..] == ResetTrackers(old(trackers[..]), |ConnectedIds(connected)|)
      ensures forall k | 0 <= k < MAX_CARS :: collisionLockoutTimer[k] == 0
    {
      playerIndex := myPlayerId;
      carCount := MAX_CARS;
      SpawnByRank(connected);
    }

    /** The spawn loop of Race_InitMultiplayerCars: every slot in id order, connected ones by rank. */
    method SpawnByRank(connected: seq<bool>)
      requires Valid() && |connected| == MAX_CARS
      modifies cars, trackers, collisionLockoutTimer
      ensures forall k | 0 <= k < MAX_CARS :: cars[k].State() == SpawnValue(old(cars[k].State()), SpawnOf(connected, k))
      ensures trackers[..] == ResetTrackers(old(trackers[..]), |ConnectedIds(connected)|)
      ensures forall k | 0 <= k < MAX_CARS :: collisionLockoutTimer[k] == 0
    {
      var connectedIndices := CollectConnected(connected);
      var i := 0;
      while i < MAX_CARS
        invariant 0 <= i <= MAX_CARS
        invariant forall k | 0 <= k < MAX_CARS ::
          cars[k].State() == if k < i then SpawnValue(old(cars[k].State()), SpawnOf(connected, k)) else old(cars[k].State())
        invariant trackers[..] == ResetTrackers(old(trackers[..]), |ConnectedIds(connected[..i])|)
        invariant forall k | 0 <= k < i :: collisionLockoutTimer[k] == 0
      {
        assert connected[..i + 1] == connected[..i] + [connected[i]];
        ConnectedIdsSnoc(connected[..i], connected[i]);
        ghost var n := |ConnectedIds(connected[..i])|;
        if connected[i] {
          ResetTrackersStep(old(trackers[..]), n);
        }
        SpawnSlot(connected, connectedIndices, i);
        i := i + 1;
      }
      assert connected[..i] == connected;
    }

    /** The spawn loop of Race_InitSinglePlayerCars and Race_Reset: car i spawns at position i. */
    method SpawnInSlotOrder()
      requires Valid()
      modifies cars, trackers, collisionLockoutTimer
      ensures forall k | 0 <= k < MAX_CARS ::
        cars[k].State() == if k < carCount then SpawnValue(old(cars[k].State()), k) else old(cars[k].State())
      ensures trackers[..] == ResetTrackers(old(trackers[..]), carCount)
      ensures forall k | 0 <= k < MAX_CARS :: collisionLockoutTimer[k] == if k < carCount then 0 else old(collisionLockoutTimer[k])
    {
      var i := 0;
      while i < carCount
        invariant 0 <= i <= carCount
        invariant forall k | 0 <= k < MAX_CARS ::
          cars[k].State() == if k < i then SpawnValue(old(cars[k].State()), k) else old(cars[k].State())
        invariant trackers[..] == ResetTrackers(old(trackers[..]), i)
        invariant forall k | 0 <= k < MAX_CARS :: collisionLockoutTimer[k] == if k < i then 0 else old(collisionLockoutTimer[k])
      {
        InitCarAtSpawn(cars[i], i);
        collisionLockoutTimer[i] := 0;
        i := i + 1;
      }
    }

    /** Race_InitSinglePlayerCars: one car, the player's, at spawn 0. */
    method InitSinglePlayerCars()
      requires Valid()
      modifies this, cars, trackers, collisionLockoutTimer
      ensures Valid() && Vars() == old(Vars()).(playerIndex := 0, carCount := 1)
      ensures cars[0].State() == SpawnValue(old(cars[0].State()), 0)
      ensures forall k | 1 <= k < MAX_CARS :: cars[k].State() == old(cars[k].State())
      ensures trackers[..] == old(trackers[..])[0 := FRESH_TRACKER]
      ensures collisionLockoutTimer[..] == old(collisionLockoutTimer[..])[0 := 0]
    {
      playerIndex := 0;
      carCount := 1;
      SpawnInSlotOrder();
    }

    /** The finish tracking and the countdown back to their starting values, race running. */
    method RestartRace()
      modifies this
      ensures Vars() == old(Vars()).(raceStarted := true, raceFinished := false, finishDelayTimer := 0,
                                     finalTimeMin := 0, finalTimeSec := 0, finalTimeMsec := 0, countdown := COUNTDOWN_START)
    {
      raceStarted := true;
      raceFinished := false;
      finishDelayTimer, finalTimeMin, finalTimeSec, finalTimeMsec := 0, 0, 0, 0;
      countdownState, countdownTimer, raceCanStart := Countdown3, 0, false;
    }

    /** Race_InitState. */
    method InitState(raceMap: Map, mode: GameMode)
      modifies this
      ensures Vars() == old(Vars()).(
        currentMap := raceMap, gameMode := mode, raceStarted := true, raceFinished := false,
        finishDelayTimer := 0, finalTimeMin := 0, finalTimeSec := 0, finalTimeMsec := 0,
        countdown := COUNTDOWN_START, isMultiplayerRace := mode == MultiPlayer)
    {
      currentMap := raceMap;
      gameMode := mode;
      RestartRace();
      isMultiplayerRace := mode == MultiPlayer;
    }

    /** Race_ConfigureLaps. */
    method ConfigureLaps(raceMap: Map)
      modifies this
      ensures Vars() == old(Vars()).(totalLaps := ConfiguredLaps(raceMap, old(isMultiplayerRace)))
    {
      if isMultiplayerRace && raceMap == ScorchingSands {
        totalLaps := 5;
      } else {
        totalLaps := MapLaps(raceMap);
      }
    }

    /**
     * Race_Init: a race on a real map starts with a fresh countdown, the
     * configured lap count and the cars on the spawn grid; the missing map
     * changes nothing. Connection flags come from the lobby.
     */
    method Init(raceMap: Map, mode: GameMode, myPlayerId: int, connected: seq<bool>)
      requires Valid() && |connected| == MAX_CARS && 0 <= myPlayerId < MAX_CARS
      modifies this, cars, trackers, collisionLockoutTimer
      ensures Valid()
      ensures raceMap == NoneMap ==>
        (Vars() == old(Vars()) && trackers[..] == old(trackers[..]) &&
         collisionLockoutTimer[..] == old(collisionLockoutTimer[..]) &&
         forall k | 0 <= k < MAX_CARS :: cars[k].State() == old(cars[k].State()))
      ensures raceMap != NoneMap ==> Vars() == old(Vars()).(
        currentMap := raceMap, gameMode := mode, raceStarted := true, raceFinished := false,
        finishDelayTimer := 0, finalTimeMin := 0, finalTimeSec := 0, finalTimeMsec := 0,
        countdown := COUNTDOWN_START, isMultiplayerRace := mode == MultiPlayer,
        totalLaps := ConfiguredLaps(raceMap, mode == MultiPlayer), checkpointCount := 0,
        playerIndex := if mode == MultiPlayer then myPlayerId else 0,
        carCount := if mode == MultiPlayer then MAX_CARS else 1)
      ensures raceMap != NoneMap && mode == MultiPlayer ==>
        (forall k | 0 <= k < MAX_CARS :: cars[k].State() == SpawnValue(old(cars[k].State()), SpawnOf(connected, k))) &&
        trackers[..] == ResetTrackers(old(trackers[..]), |ConnectedIds(connected)|)
      ensures raceMap != NoneMap && mode == SinglePlayer ==>
        cars[0].State() == SpawnValue(old(cars[0].State()), 0) &&
        (forall k | 1 <= k < MAX_CARS :: cars[k].State() == old(cars[k].State())) &&
        trackers[..] == old(trackers[..])[0 := FRESH_TRACKER]
      ensures raceMap != NoneMap ==> IsActive() && IsCountdownActive()
    {
      if raceMap == NoneMap {
        return;
      }
      InitState(raceMap, mode);
      ConfigureLaps(raceMap);
      if isMultiplayerRace {
        InitMultiplayerCars(myPlayerId, connected);
      } else {
        InitSinglePlayerCars();
      }
      checkpointCount := 0;
    }

    /** Race_Reset: the same race again, every racing car back at the spawn of its own slot. */
    method Reset()
      requires Valid()
      modifies this, cars, trackers, collisionLockoutTimer
      ensures Valid()
      ensures old(currentMap) == NoneMap ==>
        (Vars() == old(Vars()) && trackers[..] == old(trackers[..]) &&
         collisionLockoutTimer[..] == old(collisionLockoutTimer[..]) &&
         forall k | 0 <= k < MAX_CARS :: cars[k].State() == old(cars[k].State()))
      ensures old(currentMap) != NoneMap ==>
        Vars() == old(Vars()).(raceStarted := true, raceFinished := false, finishDelayTimer := 0,
                               finalTimeMin := 0, finalTimeSec := 0, finalTimeMsec := 0, countdown := COUNTDOWN_START) &&
        (forall k | 0 <= k < MAX_CARS :: cars[k].State() ==
          if k < carCount then SpawnValue(old(cars[k].State()), k) else old(cars[k].State())) &&
        trackers[..] == ResetTrackers(old(trackers[..]), carCount)
    {
      if currentMap == NoneMap {
        return;
      }
      RestartRace();
      SpawnInSlotOrder();
    }

    /** Race_Stop; the pause interrupt and the timer are hardware. */
    method Stop()
      modifies this
      ensures Vars() == old(Vars()).(raceStarted := false)
      ensures !IsActive()
    {
      raceStarted := false;
    }

    /** checkCheckpointProgression for the car in slot carIndex. */
    method CheckCheckpointProgression(car: Car, carIndex: int)
      requires Valid() && 0 <= carIndex < MAX_CARS
      modifies trackers
      ensures var (x, y) := Centre(car.position);
        trackers[..] == old(trackers[..])[carIndex := CheckpointUpdate(old(trackers[carIndex]), x, y)]
    {
      var carX := FixedToInt(car.position.x) + CAR_SPRITE_CENTER_OFFSET;
      var carY := FixedToInt(car.position.y) + CAR_SPRITE_CENTER_OFFSET;
      var isOnLeftSide := carX < CHECKPOINT_DIVIDE_X;
      var isOnTopSide := carY < CHECKPOINT_DIVIDE_Y;
      var t := trackers[carIndex];
      match t.cpState {
        case CpStart =>
          if !t.wasOnTopSide && isOnTopSide {
            trackers[carIndex] := trackers[carIndex].(cpState := CpNeedLeft);
          }
        case CpNeedLeft =>
          if !t.wasOnLeftSide && isOnLeftSide {
            trackers[carIndex] := trackers[carIndex].(cpState := CpNeedDown);
          }
        case CpNeedDown =>
          if t.wasOnTopSide && !isOnTopSide {
            trackers[carIndex] := trackers[carIndex].(cpState := CpNeedRight);
          }
        case CpNeedRight =>
          if t.wasOnLeftSide && !isOnLeftSide {
            trackers[carIndex] := trackers[carIndex].(cpState := CpReadyForLap);
          }
        case CpReadyForLap =>
      }
      trackers[carIndex] := trackers[carIndex].(wasOnLeftSide := isOnLeftSide, wasOnTopSide := isOnTopSide);
    }

    /** checkFinishLineCross for the car in slot carIndex (Race_CheckFinishLineCross passes playerIndex). */
    method CheckFinishLineCross(car: Car, carIndex: int) returns (lapDone: bool)
      requires Valid() && 0 <= carIndex < MAX_CARS
      modifies trackers
      ensures var r := FinishLineUpdate(old(trackers[carIndex]), Centre(car.position).1);
        trackers[..] == old(trackers[..])[carIndex := r.0] && lapDone == r.1
    {
      var carY := FixedToInt(car.position.y) + CAR_SPRITE_CENTER_OFFSET;
      var isNowAbove := carY < FINISH_LINE_Y;
      var crossedLine := !trackers[carIndex].wasAboveFinishLine && isNowAbove;
      trackers[carIndex] := trackers[carIndex].(wasAboveFinishLine := isNowAbove);
      if crossedLine && !trackers[carIndex].hasCompletedFirstCrossing {
        trackers[carIndex] := trackers[carIndex].(hasCompletedFirstCrossing := true);
        return false;
      }
      if crossedLine && trackers[carIndex].cpState == CpReadyForLap {
        trackers[carIndex] := trackers[carIndex].(cpState := CpStart);
        return true;
      }
      return false;
    }

    /** The wall test of clampToMapBounds: the collision normal when colliding, else (0, 0). */
    static method WallNormalAt(carX: int, carY: int) returns (nx: int, ny: int)
      ensures (nx, ny) == WallNormal(carX, carY)
    {
      var quad := CarQuadrant(carX, carY);
      var hit := WallCollision.CheckCollision(carX, carY, CAR_RADIUS, quad);
      nx, ny := 0, 0;
      if hit {
        nx, ny := WallCollision.GetCollisionNormal(carX, carY, quad);
      }
    }

    /** The wall half of clampToMapBounds: push the car off a wall with a non-zero normal and lock it out. */
    method PushOffWall(car: Car, carIndex: int)
      requires Valid() && 0 <= carIndex < MAX_CARS
      modifies car, collisionLockoutTimer
      ensures var n := WallPush(old(car.position));
        car.State() == if n == (0, 0) then old(car.State())
                       else old(car.State()).(position := Add(old(car.position), FromInt(n.0 * CAR_RADIUS, n.1 * CAR_RADIUS)),
                                              speed := 0)
      ensures collisionLockoutTimer[..] == if WallPush(old(car.position)) == (0, 0) then old(collisionLockoutTimer[..])
                                           else old(collisionLockoutTimer[..])[carIndex := COLLISION_LOCKOUT_FRAMES]
    {
      var carX := FixedToInt(car.position.x) + CAR_SPRITE_CENTER_OFFSET;
      var carY := FixedToInt(car.position.y) + CAR_SPRITE_CENTER_OFFSET;
      var nx, ny := WallNormalAt(carX, carY);
      WallPushAt(car.position, carX, carY);
      ghost var before := car.State();
      if nx != 0 || ny != 0 {
        var moved := Add(car.position, FromInt(nx * CAR_RADIUS, ny * CAR_RADIUS));
        car.position := moved;
        car.speed := 0;
        assert car.State() == before.(position := moved, speed := 0);
        collisionLockoutTimer[carIndex] := COLLISION_LOCKOUT_FRAMES;
      }
    }

    /** The map-bounds half of clampToMapBounds. */
    static method ClampPosition(car: Car)
      modifies car
      ensures car.State() == old(car.State()).(position := Vec2(ClampCoord(old(car.position.x)), ClampCoord(old(car.position.y))))
    {
      if car.position.x < MIN_POS {
        car.position := car.position.(x := MIN_POS);
      }
      if car.position.y < MIN_POS {
        car.position := car.position.(y := MIN_POS);
      }
      if car.position.x > MAX_POS {
        car.position := car.position.(x := MAX_POS);
      }
      if car.position.y > MAX_POS {
        car.position := car.position.(y := MAX_POS);
      }
    }

    /** clampToMapBounds for the car in slot carIndex. */
    method ClampToMapBounds(car: Car, carIndex: int)
      requires Valid() && 0 <= carIndex < MAX_CARS
      modifies car, collisionLockoutTimer
      ensures car.State() == ClampedValue(old(car.State()), WallPush(old(car.position)))
      ensures collisionLockoutTimer[..] == if WallPush(old(car.position)) == (0, 0) then old(collisionLockoutTimer[..])
                                           else old(collisionLockoutTimer[..])[carIndex := COLLISION_LOCKOUT_FRAMES]
    {
      PushOffWall(car, carIndex);
      ClampPosition(car);
    }

    /**
     * Race_Tick. Once the race is finished only the finish delay counts
     * down, never below 0. While the race is active the player's car is
     * updated, pushed off walls and clamped, its checkpoints advance from
     * the clamped position and its lockout counts down.
     */
    method Tick()
      requires Valid()
      modifies this, cars[playerIndex], trackers, collisionLockoutTimer
      ensures Valid()
      ensures old(raceFinished) ==>
        Vars() == old(Vars()).(finishDelayTimer := if old(finishDelayTimer) > 0 then old(finishDelayTimer) - 1
                                                   else old(finishDelayTimer)) &&
        unchanged(cars[playerIndex], trackers, collisionLockoutTimer)
      ensures old(raceFinished) && old(finishDelayTimer) >= 0 ==> finishDelayTimer >= 0
      ensures !old(raceFinished) && !old(raceStarted) ==>
        Vars() == old(Vars()) && unchanged(cars[playerIndex], trackers, collisionLockoutTimer)
      ensures old(IsActive()) ==>
        var pi := playerIndex;
        var v := MovedCar(old(cars[pi].State()));
        var (x, y) := Centre(v.position);
        Vars() == old(Vars()) && cars[pi].State() == v &&
        trackers[..] == old(trackers[..])[pi := CheckpointUpdate(old(trackers[pi]), x, y)] &&
        collisionLockoutTimer[..] == old(collisionLockoutTimer[..])[pi := LockoutAfter(old(collisionLockoutTimer[pi]), old(cars[pi].State()))]
    {
      if raceFinished {
        if finishDelayTimer > 0 {
          finishDelayTimer := finishDelayTimer - 1;
        }
        return;
      }
      if !IsActive() {
        return;
      }
      StepPlayer();
    }

    /** The frame of a race in progress: the player's car moves, is kept in bounds, and its checkpoint progress and lockout advance. */
    method StepPlayer()
      requires Valid() && IsActive()
      modifies cars[playerIndex], trackers, collisionLockoutTimer
      ensures Valid()
      ensures cars[playerIndex].State() == MovedCar(old(cars[playerIndex].State()))
      ensures var (x, y) := Centre(MovedCar(old(cars[playerIndex].State())).position);
        trackers[..] == old(trackers[..])[playerIndex := CheckpointUpdate(old(trackers[playerIndex]), x, y)]
      ensures collisionLockoutTimer[..] ==
        old(collisionLockoutTimer[..])[playerIndex := LockoutAfter(old(collisionLockoutTimer[playerIndex]), old(cars[playerIndex].State()))]
    {
      var player := cars[playerIndex];
      ghost var v := MovedCar(player.State());
      player.Update();
      ClampToMapBounds(player, playerIndex);
      assert player.State() == v;
      ghost var lockouts := collisionLockoutTimer[..];
      CheckCheckpointProgression(player, playerIndex);
      assert collisionLockoutTimer[..] == lockouts;
      if collisionLockoutTimer[playerIndex] > 0 {
        collisionLockoutTimer[playerIndex] := collisionLockoutTimer[playerIndex] - 1;
      }
    }
  }

  /**
   * Race_InitMultiplayerCars resets the trackers of the first spawn
   * indices, not of the connected slots: with only player 1 connected, a
   * tracker left READY_FOR_LAP in slot 1 survives, and the very next
   * upward crossing of the finish line counts as a lap.
   */
  lemma StaleSlotTrackerSurvivesInit(ts: seq<LapTracker>, connected: seq<bool>)
    requires |ts| == MAX_CARS && ts[1] == LapTracker(false, true, CpReadyForLap, false, false)
    requires |connected| == MAX_CARS && !connected[0] && connected[1]
    requires forall k | 2 <= k < MAX_CARS :: !connected[k]
    ensures SpawnOf(connected, 1) == 0
    ensures ResetTrackers(ts, |ConnectedIds(connected)|)[1] == ts[1]
    ensures FinishLineUpdate(ts[1], FINISH_LINE_Y - 1).1
  {
    OnlySlotOneConnected(connected);
  }

  /** With only slot 1 connected, connectedIndices is [1] and no id comes before slot 1. */
  lemma OnlySlotOneConnected(connected: seq<bool>)
    requires |connected| == MAX_CARS && !connected[0] && connected[1]
    requires forall k | 2 <= k < MAX_CARS :: !connected[k]
    ensures ConnectedIds(connected[..1]) == [] && ConnectedIds(connected) == [1]
  {
    NoIdsPastPrefix(connected, 2);
    assert connected[..2] == [false, true];
    assert connected[..1] == [false];
    ConnectedIdsSnoc([], false);
    ConnectedIdsSnoc([false], true);
  }

  /** Slots past m that are all disconnected add no ids. */
  lemma {:induction false} NoIdsPastPrefix(connected: seq<bool>, m: nat)
    requires m <= |connected| && forall k | m <= k < |connected| :: !connected[k]
    ensures ConnectedIds(connected) == ConnectedIds(connected[..m])
    decreases |connected|
  {
    if m == |connected| {
      assert connected[..m] == connected;
    } else {
      var front := connected[..|connected| - 1];
      assert front[..m] == connected[..m];
      NoIdsPastPrefix(front, m);
    }
  }
}
