/**
 * Waypoint navigation for homing items (gameplay/items/item_navigation.c):
 * a fixed racing-line loop for Scorching Sands, nearest-waypoint search,
 * table lookups and the "reached" radius. Other maps have no waypoints.
 */
module ItemNavigation {
  import opened FixedMath
  import opened GameTypes
  import opened MinScan

  /** A waypoint counts as reached within 25 pixels. */
  const WAYPOINT_REACHED_DIST: int := 25 * FIXED_ONE
  /** The starting minimum of the nearest-waypoint search, INT32_MAX. */
  const INT32_MAX: int := 0x7FFF_FFFF
  const SCORCHING_SANDS_WAYPOINT_COUNT: int := 119

  datatype Waypoint = Waypoint(pos: Vec2, next: int)

  function W(x: int, y: int, next: int): Waypoint { Waypoint(FromInt(x, y), next) }

  /** The Scorching Sands racing line, entry by entry. */
  const SCORCHING_SANDS_WAYPOINTS: seq<Waypoint> :=
    [W(940, 553, 1), W(940, 533, 2), W(944, 501, 3), W(944, 479, 4), W(944, 459, 5), W(940, 452, 6)] +
    [W(938, 430, 7), W(904, 413, 8), W(865, 395, 9), W(840, 373, 10), W(816, 354, 11), W(790, 339, 12)] +
    [W(759, 322, 13), W(736, 305, 14), W(710, 293, 15), W(676, 283, 16), W(639, 269, 17), W(620, 260, 18)] +
    [W(602, 253, 19), W(590, 246, 20), W(568, 232, 21), W(550, 222, 22), W(534, 219, 23), W(514, 204, 24)] +
    [W(487, 192, 25), W(462, 177, 26), W(431, 165, 27), W(413, 154, 28), W(398, 145, 29), W(380, 132, 30)] +
    [W(356, 117, 31), W(313, 100, 32), W(282, 82, 33), W(240, 71, 34), W(207, 71, 35), W(178, 71, 36)] +
    [W(157, 77, 37), W(140, 84, 38), W(119, 105, 39), W(103, 116, 40), W(86, 142, 41), W(81, 160, 42)] +
    [W(79, 181, 43), W(77, 214, 44), W(72, 237, 45), W(68, 308, 46), W(68, 332, 47), W(68, 379, 48)] +
    [W(68, 418, 49), W(68, 455, 50), W(68, 492, 51), W(68, 535, 52), W(68, 555, 53), W(68, 595, 54)] +
    [W(68, 639, 55), W(70, 668, 56), W(71, 692, 57), W(82, 704, 58), W(92, 715, 59), W(100, 718, 60)] +
    [W(115, 725, 61), W(135, 731, 62), W(149, 731, 63), W(175, 731, 64), W(196, 726, 65), W(208, 724, 66)] +
    [W(218, 717, 67), W(237, 702, 68), W(264, 697, 69), W(280, 684, 70), W(288, 681, 71), W(305, 668, 72)] +
    [W(326, 666, 73), W(342, 645, 74), W(362, 639, 75), W(391, 634, 76), W(423, 613, 77), W(446, 600, 78)] +
    [W(480, 588, 79), W(500, 587, 80), W(513, 587, 81), W(546, 596, 82), W(557, 614, 83), W(570, 631, 84)] +
    [W(574, 643, 85), W(585, 660, 86), W(592, 677, 87), W(622, 728, 88), W(629, 747, 89), W(636, 760, 90)] +
    [W(651, 801, 91), W(674, 846, 92), W(694, 871, 93), W(711, 883, 94), W(723, 887, 95), W(735, 897, 96)] +
    [W(759, 911, 97), W(776, 918, 98), W(798, 923, 99), W(826, 923, 100), W(840, 923, 101), W(881, 925, 102)] +
    [W(898, 918, 103), W(910, 908, 104), W(927, 893, 105), W(930, 883, 106), W(938, 857, 107), W(940, 837, 108)] +
    [W(940, 814, 109), W(942, 778, 110), W(942, 756, 111), W(944, 732, 112), W(948, 686, 113), W(949, 657, 114)] +
    [W(948, 624, 115), W(946, 609, 116), W(945, 582, 117), W(945, 557, 118), W(940, 553, 0)]

  /** getWaypointsForMap: the table of a map, empty for every map but Scorching Sands. */
  function WaypointsFor(m: Map): (ws: seq<Waypoint>)
    ensures m == ScorchingSands ==> |ws| == SCORCHING_SANDS_WAYPOINT_COUNT
    ensures m != ScorchingSands ==> ws == []
  {
    if m == ScorchingSands then SCORCHING_SANDS_WAYPOINTS else []
  }

  /** Every entry leads to the one after it and the last leads back to 0: one cycle through all 119. */
  lemma WaypointsFormOneCycle()
    ensures forall i | 0 <= i < |SCORCHING_SANDS_WAYPOINTS| ::
      SCORCHING_SANDS_WAYPOINTS[i].next == (i + 1) % SCORCHING_SANDS_WAYPOINT_COUNT
  {
    forall i | 0 <= i < |SCORCHING_SANDS_WAYPOINTS|
      ensures SCORCHING_SANDS_WAYPOINTS[i].next == (i + 1) % SCORCHING_SANDS_WAYPOINT_COUNT
    {
      if i < 12 { WaypointLinks0(i); }
      else if i < 24 { WaypointLinks12(i); }
      else if i < 36 { WaypointLinks24(i); }
      else if i < 48 { WaypointLinks36(i); }
      else if i < 60 { WaypointLinks48(i); }
      else if i < 72 { WaypointLinks60(i); }
      else if i < 84 { WaypointLinks72(i); }
      else if i < 96 { WaypointLinks84(i); }
      else if i < 108 { WaypointLinks96(i); }
      else if i < 119 { WaypointLinks108(i); }
    }
  }

  lemma WaypointLinks0(i: int)
    requires 0 <= i < 12
    ensures SCORCHING_SANDS_WAYPOINTS[i].next == (i + 1) % SCORCHING_SANDS_WAYPOINT_COUNT
  {
  }

  lemma WaypointLinks12(i: int)
    requires 12 <= i < 24
    ensures SCORCHING_SANDS_WAYPOINTS[i].next == (i + 1) % SCORCHING_SANDS_WAYPOINT_COUNT
  {
  }

  lemma WaypointLinks24(i: int)
    requires 24 <= i < 36
    ensures SCORCHING_SANDS_WAYPOINTS[i].next == (i + 1) % SCORCHING_SANDS_WAYPOINT_COUNT
  {
  }

  lemma WaypointLinks36(i: int)
    requires 36 <= i < 48
    ensures SCORCHING_SANDS_WAYPOINTS[i].next == (i + 1) % SCORCHING_SANDS_WAYPOINT_COUNT
  {
  }

  lemma WaypointLinks48(i: int)
    requires 48 <= i < 60
    ensures SCORCHING_SANDS_WAYPOINTS[i].next == (i + 1) % SCORCHING_SANDS_WAYPOINT_COUNT
  {
  }

  lemma WaypointLinks60(i: int)
    requires 60 <= i < 72
    ensures SCORCHING_SANDS_WAYPOINTS[i].next == (i + 1) % SCORCHING_SANDS_WAYPOINT_COUNT
  {
  }

  lemma WaypointLinks72(i: int)
    requires 72 <= i < 84
    ensures SCORCHING_SANDS_WAYPOINTS[i].next == (i + 1) % SCORCHING_SANDS_WAYPOINT_COUNT
  {
  }

  lemma WaypointLinks84(i: int)
    requires 84 <= i < 96
    ensures SCORCHING_SANDS_WAYPOINTS[i].next == (i + 1) % SCORCHING_SANDS_WAYPOINT_COUNT
  {
  }

  lemma WaypointLinks96(i: int)
    requires 96 <= i < 108
    ensures SCORCHING_SANDS_WAYPOINTS[i].next == (i + 1) % SCORCHING_SANDS_WAYPOINT_COUNT
  {
  }

  lemma WaypointLinks108(i: int)
    requires 108 <= i < 119
    ensures SCORCHING_SANDS_WAYPOINTS[i].next == (i + 1) % SCORCHING_SANDS_WAYPOINT_COUNT
  {
  }

  /** ItemNav_GetWaypointPosition: the zero vector for a map without waypoints or an index out of range. */
  function GetWaypointPosition(waypointIndex: int, m: Map): (p: Vec2)
    ensures !(0 <= waypointIndex < |WaypointsFor(m)|) ==> p == Zero()
    ensures 0 <= waypointIndex < |WaypointsFor(m)| ==> p == WaypointsFor(m)[waypointIndex].pos
  {
    var ws := WaypointsFor(m);
    if waypointIndex < 0 || waypointIndex >= |ws| then Zero() else ws[waypointIndex].pos
  }

  /** ItemNav_GetNextWaypoint: 0 for a map without waypoints or an index out of range. */
  function GetNextWaypoint(currentWaypoint: int, m: Map): (r: int)
    ensures !(0 <= currentWaypoint < |WaypointsFor(m)|) ==> r == 0
    ensures 0 <= currentWaypoint < |WaypointsFor(m)| ==> r == WaypointsFor(m)[currentWaypoint].next
  {
    var ws := WaypointsFor(m);
    if currentWaypoint < 0 || currentWaypoint >= |ws| then 0 else ws[currentWaypoint].next
  }

  /** On Scorching Sands the next waypoint is always a valid index, one step round the loop. */
  lemma NextWaypointStaysOnLoop(i: int)
    ensures var n := GetNextWaypoint(i, ScorchingSands);
      0 <= n < SCORCHING_SANDS_WAYPOINT_COUNT &&
      (0 <= i < SCORCHING_SANDS_WAYPOINT_COUNT ==> n == (i + 1) % SCORCHING_SANDS_WAYPOINT_COUNT)
  {
    WaypointsFormOneCycle();
  }

  /** ItemNav_IsWaypointReached. */
  predicate IsWaypointReached(itemPos: Vec2, waypointPos: Vec2)
  {
    Distance(itemPos, waypointPos) <= WAYPOINT_REACHED_DIST
  }

  /** The distance from position to each waypoint, in table order. */
  function WaypointDistances(position: Vec2, ws: seq<Waypoint>): (ds: seq<int>)
    ensures |ds| == |ws| && forall k | 0 <= k < |ws| :: ds[k] == Distance(position, ws[k].pos)
  {
    seq(|ws|, k requires 0 <= k < |ws| => Distance(position, ws[k].pos))
  }

  /** What ItemNav_FindNearestWaypoint returns. */
  function NearestWaypoint(position: Vec2, m: Map): int
  {
    var ws := WaypointsFor(m);
    if ws == [] then 0 else RunMin(WaypointDistances(position, ws), |ws|, 0, INT32_MAX).0
  }

  /**
   * The nearest waypoint is 0 on a map without waypoints; otherwise it is a
   * valid index, no waypoint closer than INT32_MAX is nearer, and every
   * earlier waypoint is strictly farther (the first of equal minima wins).
   */
  lemma NearestWaypointIsFirstClosest(position: Vec2, m: Map)
    ensures var ws := WaypointsFor(m);
      var r := NearestWaypoint(position, m);
      (ws == [] ==> r == 0) &&
      (ws != [] ==>
         0 <= r < |ws| &&
         (forall k | 0 <= k < |ws| && Distance(position, ws[k].pos) < INT32_MAX ::
            Distance(position, ws[r].pos) <= Distance(position, ws[k].pos)) &&
         (r == 0 || forall k | 0 <= k < r :: Distance(position, ws[k].pos) > Distance(position, ws[r].pos)))
  {
    var ws := WaypointsFor(m);
    if ws != [] {
      var ds := WaypointDistances(position, ws);
      RunMinIsFirstMinimum(ds, |ws|, 0, INT32_MAX);
    }
  }

  /** ItemNav_FindNearestWaypoint: a running-minimum scan of the map's table. */
  method FindNearestWaypoint(position: Vec2, m: Map) returns (nearestIndex: int)
    ensures nearestIndex == NearestWaypoint(position, m)
    ensures 0 <= nearestIndex && (WaypointsFor(m) != [] ==> nearestIndex < |WaypointsFor(m)|)
  {
    var ws := WaypointsFor(m);
    if ws == [] {
      return 0;
    }
    ghost var ds := WaypointDistances(position, ws);
    nearestIndex := 0;
    var minDist := INT32_MAX;
    var i := 0;
    while i < |ws|
      invariant 0 <= i <= |ws|
      invariant (nearestIndex, minDist) == RunMin(ds, i, 0, INT32_MAX)
    {
      var dist := Distance(position, ws[i].pos);
      if dist < minDist {
        minDist := dist;
        nearestIndex := i;
      }
      i := i + 1;
    }
    NearestWaypointIsFirstClosest(position, m);
  }
}
