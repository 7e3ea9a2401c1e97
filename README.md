# Kart Mania in Dafny

Kart Mania is a kart racer for the Nintendo DS written in C, with Python tools that talk its multiplayer
protocol over UDP. This project is a Dafny model of the game's logic, with proofs about it:

- **Multiplayer.** The Python packet builder and the simulated DS player. Both produce 32-byte datagrams
  with an 8-byte header and a sequence counter (`wire.dfy`, `ds_player.dfy`). The device side is the C
  packet layout with a 4-byte header. It keeps an 8-slot peer table with a 3-second timeout, runs the lobby
  heartbeat and the start rule, and receives car states in the race (`multiplayer.dfy`). Lemmas relate the
  Python datagrams to what the device makes of them.
- **Fixed-point math.** Q16.8 arithmetic and 9-bit binary angles: the quarter-wave sine table, the bitwise
  integer square root, vector length and normalisation, and the binary-search angle of a vector
  (`fixedmath.dfy`).
- **The race.** The scalar-speed car (`car.dfy`) and wall segments with their bounce normal
  (`wall_collision.dfy`). The race controller covers the countdown, checkpoint and finish-line trackers,
  spawn grid, map clamp, scroll and finish delay (`gameplay_logic.dfy`). The gameplay screen covers the
  millisecond chronometers, the end-of-race sequence and the digit tiles (`gameplay.dfy`).
- **Items.** The 32-slot track-item pool and the item-box table (`items_state.dfy`). Spawning into the
  first free slot (`items_spawning.dfy`). The per-frame update covers lifetimes, shooter immunity, homing
  and box respawns (`items_update.dfy`). Collisions cover hits, hazards, bomb blasts and box pickups
  (`items_collision.dfy`). Also modelled: the held item, the weighted draw and missile targeting
  (`items_inventory.dfy`), status effects (`items_effects.dfy`), homing waypoints (`item_navigation.dfy`)
  and the debug queries (`items_debug.dfy`).
- **Persistence.** The `Map=MM:SS.mmm` best-time file (`storage_pb.dfy`) and the three-flag settings
  file (`storage.dfy`). Both are read through a model of `fgets` over the file's text (`text_file.dfy`).
- **Bots and track helpers.** Bot bookkeeping and steering (`bot_ai.dfy`), the racing line
  (`racing_line.dfy` for its values, `racing_line_state.dfy` for its statics), the boundary-based on-track test (`track_geometry.dfy`) and sand detection from the
  background's colours (`terrain.dfy`).
- **Shared code.** `game_types.dfy` holds the shared enumerations and constants. `min_scan.dfy` holds the
  running-minimum loop that several modules share.

Objects the C or Python code updates in place are classes; their methods are proved equal to value-level
functions, and lemmas state the properties. Examples are the car, the item pool, the peer table, the race
controller, the bots, the racing line and the simulated player. Pure code is datatypes and functions.
Every C rounding rule is written out: an arithmetic shift right floors, and C `/` and `%` truncate toward
zero (`FixedMath.TruncDiv`, `FixedMath.TruncMod`). Unsigned 32-bit clock arithmetic wraps modulo 2^32.

Behaviour of the code that the proofs make explicit:

- `TrackGeometry_GetDistanceToEdge` is largest on a boundary, not in the middle of the track
  (`TrackGeometry.EdgeValueOnTheBoundary`).
- `calculateCurvature` returns values up to 200, not the 0..100 its comment describes
  (`RacingLine.CurvatureExtremes`).
- When the best-time table already holds ten other maps, `StoragePB_SaveBestTime` reports success but
  writes no record of the map (`StoragePB.SaveThenLoad`).
- In multiplayer, a car's lap trackers are reset at its spawn index rather than its own slot, so a stale
  tracker can survive `Race_InitMultiplayerCars` (`GameplayLogic.StaleSlotTrackerSurvivesInit`).
- The Python tools and the device disagree on the wire:
  - the header is 8 bytes in Python and 4 on the device, so the device reads a Python READY's flag from
    the sequence number (`Multiplayer.PythonReadyFlagIsSequenceByte`);
  - Python's ITEM_PLACED (4) is the device's DISCONNECT (`Multiplayer.PythonItemPlacedDisconnects`);
  - Python's DISCONNECT (6) is ignored by the device (`Multiplayer.PythonDisconnectIgnored`).
- The auto-explosion branch of `checkHazardCollision` never fires for a bomb placed with a positive
  lifetime, because `Items_Update` ends the bomb first (`ItemCollision.BombTimerEndsTheBomb`).

## Model

| member | source | states |
|---|---|---|
| FixedMath.Abs | source/BotAI.c:992-993 | the magnitude of a signed value: it equals a or -a and is never negative |
| FixedMath.TruncDiv | source/math/fixedmath.h:119 | C division of signed integers: the quotient's magnitude is the quotient of the magnitudes and its sign is negative only when the operands' signs differ (truncation toward zero) |
| FixedMath.Wrap | source/math/fixedmath.h:129 | `angle & ANGLE_MASK`: the result lies in [0, 512) and differs from the angle by whole turns |
| FixedMath.FixedRoundTrip | source/math/fixedmath.h:116-117 | converting an integer to Q16.8 and back gives the integer |
| FixedMath.FixedToIntFloors | source/math/fixedmath.h:117 | the right shift floors: the integer part times 256 is at most the value and within 256 of it |
| FixedMath.FixedMulIdentity | source/math/fixedmath.h:118 | multiplying by FIXED_ONE is the identity and FixedMul is commutative |
| FixedMath.FixedDivIdentity | source/math/fixedmath.h:119 | dividing by FIXED_ONE is the identity |
| FixedMath.FixedAbsNonNegative | source/math/fixedmath.h:120 | FixedAbs is non-negative and equals a or -a |
| FixedMath.VectorAlgebra | source/math/fixedmath.h:166-270 | subtraction undoes addition, negation is an involution, the two perpendiculars undo each other, IsZero holds exactly of the zero vector, and a point is at squared distance 0 from itself |
| FixedMath.LenSquaredNonNegative | source/math/fixedmath.h:191-193 | a squared length is never negative and is the squared distance from the origin |
| FixedMath.DistanceSquaredSymmetric | source/math/fixedmath.h:249-252 | the squared distance is symmetric |
| FixedMath.IdentityMatrix | source/math/fixedmath.h:214-235 | the identity matrix leaves vectors unchanged, is a two-sided unit of the matrix product, and is the unit scale matrix |
| FixedMath.LutShape | source/math/fixedmath.c:39-50 | the quarter-wave table has 129 entries, starts at 0, ends at FIXED_ONE, and every entry lies in [0, 256] |
| FixedMath.LutMonotone | source/math/fixedmath.c:39-50 | the quarter-wave table never decreases |
| FixedMath.SinBounded | source/math/fixedmath.c:73-113 | Fixed_Sin and Fixed_Cos lie in [-256, 256] for every angle |
| FixedMath.SinPeriodic | source/math/fixedmath.c:73-98 | Fixed_Sin depends only on the angle modulo a full turn |
| FixedMath.WrapShift | source/math/fixedmath.h:129 | adding whole turns does not change a wrapped angle |
| FixedMath.SinCongruent | source/math/fixedmath.c:73-98 | angles a whole number of turns apart have the same sine |
| FixedMath.SinHalfTurn | source/math/fixedmath.c:73-113 | half a turn negates both sine and cosine |
| FixedMath.SinLandmarks | source/math/fixedmath.c:73-113 | sine is 0, 1, 0, -1 at 0, 90, 180 and 270 degrees; cosine is 1 at 0 and -1 at 180 |
| FixedMath.SqrtIsRoot | source/math/fixedmath.c:135-156 | the reference square root is the floor square root: r*r <= n < (r+1)*(r+1) |
| FixedMath.SqrtUnique | source/math/fixedmath.c:135-156 | a number has only one floor square root |
| FixedMath.Isqrt | source/math/fixedmath.c:135-156 | the digit-by-digit loop returns the floor square root of its argument, equal to the reference Sqrt, and it fits in 32 bits |
| FixedMath.HighestBit | source/math/fixedmath.c:137-142 | the first loop stops at the highest power of four not above n (0 only for n = 0), so n is below four times it |
| FixedMath.DigitLoop | source/math/fixedmath.c:145-153 | from that power of four, the digit loop leaves in res the floor square root: res squared is at most n and (res + 1) squared exceeds it |
| FixedMath.Len | source/math/fixedmath.c:178-193 | a length is never negative and is 0 when the squared length is not positive |
| FixedMath.LenIsRoot | source/math/fixedmath.c:178-193 | for a positive squared length, the length is the floor square root of the squared length taken to Q16.16 |
| FixedMath.DistanceProperties | source/math/fixedmath.c:418-421 | the distance from a point to itself is 0, distance is symmetric and never negative |
| FixedMath.Normalize | source/math/fixedmath.c:207-218 | the zero vector, or one whose length rounds to 0, normalises to zero; otherwise each coordinate is divided by the length |
| FixedMath.NormalizeKeepsDirection | source/math/fixedmath.c:207-218 | normalising never flips a coordinate's sign and keeps a zero coordinate zero; rounding makes the result at most one unit short per coordinate, and the squared result exceeds 1.0 only by the error the rounded length brings |
| FixedMath.NormalizeNearlyUnit | source/math/fixedmath.h:316-317 | once the input is at least 4.0 long, the result has unit length up to rounding: its Q16.8 squared length lies in [251, 256] |
| FixedMath.NormalizeShortVectorOvershoots | source/math/fixedmath.c:207-218 | a short vector is not normalised to unit length: (23, 0) becomes (267, 0), squared length 278 (about 1.09) |
| FixedMath.ClampLenCases | source/math/fixedmath.c:233-248 | a non-positive limit gives the zero vector; a vector within the limit, or the zero vector, is returned unchanged |
| FixedMath.RotateByZero | source/math/fixedmath.c:350-449 | rotating by 0 or by a full turn, rotating about a pivot by 0, and the rotation matrix of angle 0 all leave the vector unchanged |
| FixedMath.FromAngleUnitAxes | source/math/fixedmath.c:264-266 | the unit vectors of angles 0, 90, 180 and 270 degrees are the four axis directions |
| FixedMath.LastAtMost | source/math/fixedmath.c:305-315 | the search target: the largest index up to i whose table entry is at most v (0 when there is none), with every later entry above v |
| FixedMath.PlaceInQuadrant | source/math/fixedmath.c:317-332 | the first-quadrant angle is mirrored into the quadrant of (x, y) and the result lies in [0, 512), quadrant by quadrant |
| FixedMath.AngleOf | source/math/fixedmath.c:288-333 | the angle of a vector lies in [0, 512) and is 0 for the zero vector |
| FixedMath.AngleOfQuadrants | source/math/fixedmath.c:288-333 | each quadrant of the plane maps into its own quarter of the circle, and a vector whose length rounds to 0 gets angle 0 |
| FixedMath.SearchTable | source/math/fixedmath.c:305-315 | the binary search returns the largest index whose table entry is at most the sine value, as LastAtMost specifies |
| FixedMath.ToAngle | source/math/fixedmath.c:288-333 | Vec2_ToAngle returns AngleOf of its argument, a value in [0, 512) |
| FixedMath.ToQuadrant | source/math/fixedmath.c:318-332 | the quarter-circle angle is reflected into the argument's quadrant: unchanged, 256 minus it, 256 plus it or 512 minus it, wrapped into [0, 512) |
| FixedMath.ProjectAsWrittenDividesByZero | source/math/fixedmath.c:464-474 | the IsZero guard lets (1, 0), whose Q16.8 squared length is 0, through to a division by zero |
| FixedMath.Project | source/math/fixedmath.c:464-474 | the guarded projection agrees with the C one wherever that is defined and is the zero vector when the divisor is 0 |
| FixedMath.RejectFromDegenerate | source/math/fixedmath.c:489-492 | rejecting from a vector with zero squared length leaves v unchanged |
| MinScan.RunMinIsFirstMinimum | source/track_geometry.c:19-43 | the strict-less running minimum keeps its starting pair when nothing beats the starting value, and otherwise ends on the first index holding the smallest candidate, which is below the starting value |
| Terrain.ColorMatchesBox | source/gameplay/terrain_detection.c:13-17 | a colour matches a target exactly when every channel lies within the tolerance of the target's channel |
| Terrain.Channels | source/gameplay/terrain_detection.c:76-78 | the three channels taken out of a BGR555 palette entry each lie in 0..31 |
| Terrain.ScreenBase | source/gameplay/terrain_detection.c:53-61 | the map block of a pixel inside the 512 x 512 window is one of the four screens, 0..3 |
| Terrain.MapSlot | source/gameplay/terrain_detection.c:53-64 | the map entry read for a window pixel lies inside the four map blocks |
| Terrain.TileIndex | source/gameplay/terrain_detection.c:65 | the tile number masked out of a map entry lies in 0..1023 |
| Terrain.IsOnSand | source/gameplay/terrain_detection.c:38-90 | a position reported as sand lies inside the quadrant's 512 x 512 window |
| Terrain.GrayAndSandAreApart | source/gameplay/terrain_detection.c:80-89 | no colour is both within one step of a track gray and within one step of a sand shade |
| Terrain.SandShadeBoxes | source/gameplay/terrain_detection.c:86-89 | a colour is a sand shade exactly when its channels lie in one of the two boxes around (20,18,12) and (22,20,14) |
| Terrain.OnSandIffSandShade | source/gameplay/terrain_detection.c:38-90 | a position is on sand exactly when it lies in the quadrant's window and the colour shown there is a sand shade; the gray test never overrides sand |
| Terrain.WindowOfQuadrant | source/gameplay/terrain_detection.c:39-51 | the window of quadrant q starts at ((q mod 3) * 256, (q div 3) * 256) and spans 512 pixels each way |
| TrackGeometry.NearestOnIsFirstClosest | source/track_geometry.c:19-43 | a boundary scan gives the zero vector when no point is closer than FAR_AWAY, and otherwise the first boundary point at the smallest squared distance |
| TrackGeometry.UnloadedDefaults | source/track_geometry.c:59-112 | before boundaries are loaded a position is off track, its edge value is 0 and the width is the default 80 pixels |
| TrackGeometry.OnTrackNeedsBothBoundaries | source/track_geometry.c:59-81 | a position counts as on track only when the boundaries are loaded and each boundary has a non-origin point closer than FAR_AWAY |
| TrackGeometry.OnTrackBoundsEdgeValue | source/track_geometry.c:59-101 | on track, the edge value is negative by at most about a sixth of the local width |
| TrackGeometry.EdgeValueOnTheBoundary | source/track_geometry.c:83-101 | a position lying on the inner boundary gets the largest edge value, half the width |
| TrackGeometry.Geometry.constructor | source/track_geometry.c:9-12 | the statics start with no tables loaded |
| TrackGeometry.Geometry.Init | source/track_geometry.c:49-57 | Scorching Sands loads its two boundary tables; any other map leaves the old state |
| TrackGeometry.Geometry.FindNearestBoundaryPoints | source/track_geometry.c:19-43 | the two scans return the nearest inner and outer points that NearestOn specifies |
| TrackGeometry.Geometry.IsOnTrack | source/track_geometry.c:59-81 | returns OnTrack of the loaded tables: both nearest points found and their distances summing to at most 4/3 of the width |
| TrackGeometry.Geometry.GetDistanceToEdge | source/track_geometry.c:83-101 | returns DistanceToEdge of the loaded tables (0 when unloaded) |
| TrackGeometry.Geometry.GetTrackWidth | source/track_geometry.c:103-112 | returns TrackWidth of the loaded tables (the default when unloaded) |
| RacingLine.InterpolateEnds | source/racing_line.c:23-28 | bias 0 gives the inner boundary point and bias 1.0 the outer one |
| RacingLine.InterpolateMidpoint | source/racing_line.c:25-28 | with the line's 0.5 bias each coordinate is the boundary midpoint rounded down, so it lies between the two boundary coordinates |
| RacingLine.Curvature | source/racing_line.c:31-47 | the sharpness lies in 0..200 and is 0 when either segment has no length |
| RacingLine.CurvatureExtremes | source/racing_line.c:31-47 | segments with the same direction give 0; segments half a turn apart give 200, twice the 100 the comment calls the hairpin value |
| RacingLine.TargetSpeed | source/racing_line.c:50-60 | a target speed is positive and never above the 50cc top speed |
| RacingLine.TargetSpeedNonIncreasing | source/racing_line.c:50-60 | a sharper corner never gets a higher speed, and the speed is one of 768, 612, 498 and 384 (100%, 80%, 65% and 50%) |
| RacingLine.RefCount | source/racing_line.c:65-66 | the reference count is the smaller of the two boundary sizes |
| RacingLine.Step | source/racing_line.c:68-70 | the sampling step is at least 1 |
| RacingLine.SampleCount | source/racing_line.c:72-96 | the first pass stores at most 64 points, and none exactly when a boundary is empty |
| RacingLine.SampleBounds | source/racing_line.c:74-75 | each stored point's loop index is below the reference count, and the loop stops exactly after SampleCount points |
| RacingLine.ScaledIndex | source/racing_line.c:76-77 | the scaled index (i * count) / refCount stays inside a boundary of count points |
| RacingLine.PrevIndex | source/racing_line.c:102 | the previous index wraps from the first point to the last |
| RacingLine.NextIndex | source/racing_line.c:103 | the next index wraps from the last point to the first |
| RacingLine.FinishFirstPass | source/racing_line.c:99-114 | the second pass on a point holding its first-pass fields gives the finished point, whatever its stale fields held |
| RacingLine.LinePoints | source/racing_line.c:63-115 | the generated line has SampleCount points and the k-th is LinePoint k |
| RacingLine.PointBetweenBounds | source/racing_line.c:76-93 | each point's left bound is an inner boundary point, its right bound an outer one, its position their rounded-down midpoint and its width the distance between them |
| RacingLine.LineIsClosed | source/racing_line.c:99-114 | each point's tangent points at the next point (the last at the first), its sharpness is the turn from the previous point through it to the next, in 0..200, and its speed is the one for that sharpness |
| RacingLine.LineSize | source/racing_line.c:63-115 | the line has at most 64 points and is empty exactly when a boundary is empty |
| RacingLine.ShortStepStopsEarly | source/racing_line.c:68-75 | with 65 to 127 reference points the step is 1 and the 64 stored points are the first 64 samples, so the rest of the lap is not sampled |
| RacingLine.NearestIsFirstClosest | source/racing_line.c:137-159 | an empty line gives the empty point and index -1; otherwise the index is valid, the point is the one stored there, no point closer than FAR_AWAY is closer, and every earlier point is farther |
| RacingLine.EmptyLineQueries | source/racing_line.c:161-197 | on an empty line nothing is on track and the edge value is 0 |
| RacingLine.OnLineBoundsEdgeValue | source/racing_line.c:161-197 | on track, the edge value is negative by at most about an eighth of the nearest point's width |
| RacingLineState.Line.constructor | source/racing_line.c:13-17 | the statics start with an empty, zeroed line and no boundaries |
| RacingLineState.Line.GeneratePoints | source/racing_line.c:63-115 | the points in use become LinePoints of the boundaries; the boundaries and the slots past the new count are untouched |
| RacingLineState.Line.SampleNext | source/racing_line.c:76-94 | one turn of the first loop: slot count receives FirstPass of its old value (the count-th sample's bounds, width and midpoint) and no other slot changes |
| RacingLineState.Line.SecondPass | source/racing_line.c:98-114 | from first-pass points, the second loop completes the line to LinePoints |
| RacingLine.SecondPassStep | source/racing_line.c:98-114 | finishing point i of a state where the points below i are finished and the rest hold their first-pass fields gives the same state one point further on |
| RacingLine.SecondPassEnd | source/racing_line.c:98-114 | once every point is finished the points in use are the whole generated line and the slots past it are untouched |
| RacingLineState.Line.FinishPoint | source/racing_line.c:99-114 | one iteration of the second loop: point i becomes LinePoint i and no other slot changes |
| RacingLineState.Line.FinishNext | source/racing_line.c:98-114 | one turn of the second loop keeps the loop's state: the first i + 1 points are finished and the rest still hold their first-pass fields |
| RacingLineState.Line.Generate | source/racing_line.c:121-131 | Scorching Sands installs its boundaries and rebuilds the line with 64 target points; any other map changes nothing |
| RacingLineState.Line.GetNearestPoint | source/racing_line.c:137-159 | returns Nearest of the points in use |
| RacingLineState.Line.IsOnTrack | source/racing_line.c:161-180 | returns LineOnTrack of the points in use: the distances to the nearest point's bounds sum to at most 5/4 of its width |
| RacingLineState.Line.GetDistanceToEdge | source/racing_line.c:182-197 | returns LineDistanceToEdge of the points in use |
| BotAI.ResetState | source/BotAI.c:463-480 | a reset bot targets waypoint 0 with next waypoint 1, has the base mistake interval, works with its base personality, and keeps its wall-bounce counters |
| BotAI.ResetForgetsRaceState | source/BotAI.c:463-480 | two states reset to the same state exactly when their base personalities and wall-bounce counters agree, and resetting twice is resetting once |
| BotAI.ResetKeepsSetPersonality | source/BotAI.c:463-488 | after a personality is set, the next reset keeps that personality |
| BotAI.ApplyPositionTactics | source/BotAI.c:1044-1062 | tactics never change consistency, reaction delay or skill level |
| BotAI.TacticsByRank | source/BotAI.c:1044-1062 | ranks up to 2 halve the item priority (C division) and change nothing else; ranks from 6 double the aggression up to 100% and set item priority to 100%; ranks 3 to 5 keep the base personality |
| BotAI.TacticsKeepPercentages | source/BotAI.c:1044-1062 | aggression and item priority that start in 0..100% stay there, and aggression never drops |
| BotAI.AvoidWeight | source/BotAI.c:903 | for a timer of 1 to 15 the avoidance weight is timer * 256 / 15, in (0, 256] |
| BotAI.Blend | source/BotAI.c:896-915 | a timer above 15 gives the avoidance target and a timer of 0 or less the racing target |
| BotAI.BlendCoordBetween | source/BotAI.c:907-910 | a weighted coordinate lies between its two ends, at worst one unit below the lower |
| BotAI.BlendStaysBetween | source/BotAI.c:901-911 | while the timer runs from 15 down to 1 the blended target stays in the box spanned by the two targets (one unit short on the low side), and at 15 it is the avoidance target itself |
| BotAI.ShortestDiff | source/BotAI.c:1243-1246 | the signed difference lies in (-256, 256] and differs from desired - current by whole turns |
| BotAI.SteerAmount | source/BotAI.c:1248-1256 | the turn is at most one 50cc steering step either way |
| BotAI.SteerTakesShortestWay | source/BotAI.c:1237-1257 | the turn is 0 exactly when the difference is 0, has the difference's sign, and has magnitude the smaller of 3 and the size of the difference |
| BotAI.SteeringClosesTheGap | source/BotAI.c:1237-1257 | after the turn the shortest difference to the desired angle is smaller by exactly the turn, so steering never overshoots |
| BotAI.SteerBranches | source/BotAI.c:1243-1256 | the C branches on the sign of the difference pick exactly the turn SteerAmount names |
| BotAI.ExecuteSteeringControl | source/BotAI.c:1237-1257 | only the car's facing angle changes, to the steered angle toward the target (not at all for a zero turn), and the remaining shortest difference shrinks by the turn |
| BotAI.SteerToward | source/BotAI.c:1241-1256 | given the desired angle, only the facing angle changes, by the turn SteerAmount names, and the shortest difference to the desired angle shrinks by exactly that turn |
| BotAI.SteeredAngleCloses | source/BotAI.c:1243-1256 | whichever branch runs, the angle it leaves is SteeredAngle and the remaining shortest difference is the old one less the turn |
| BotAI.LookaheadDistance | source/BotAI.c:662-670 | the radius is 80 pixels when not moving forward, and otherwise between 0.5 and 1.2 times that |
| BotAI.AdvancedTarget | source/BotAI.c:672-677 | the target waypoint stays or moves to the next one, cyclically |
| BotAI.AheadIndex | source/BotAI.c:684 | the scanned waypoint index lies inside the path |
| BotAI.ScanIsFurthestInRange | source/BotAI.c:683-697 | the scan stops at the first offset outside the radius and returns the waypoint just before it, or what it started with when the first offset is already outside |
| BotAI.ScanPicksInRange | source/BotAI.c:679-697 | the steering point is the target waypoint, or a waypoint at most four steps past the target that lies inside the radius, with its index recorded as next |
| BotAI.SteeringTargetAdvancesAtMostOne | source/BotAI.c:656-701 | an empty path steers at the car and changes nothing; otherwise the target moves on by at most one modulo the path length, only the two waypoint indices change, and the point is the target waypoint or a waypoint within the radius a few steps ahead |
| BotAI.NearestCheckpointIsFirstClosest | source/BotAI.c:1165-1182 | the result is -1 when no checkpoint is closer than IntToFixed(10000); otherwise it is the first checkpoint waypoint at the smallest squared distance, which is below that value |
| BotAI.AngleGap | source/BotAI.c:992-996 | the folded gap between two angles lies in 0..256 |
| BotAI.Rotated | source/BotAI.c:981-997 | the rotated path has the same length and every corner angle turned by k, wrapped |
| BotAI.GapIgnoresHeading | source/BotAI.c:992-996 | turning both angles by the same amount keeps their folded gap |
| BotAI.StraightawayIgnoresHeading | source/BotAI.c:981-997 | the corrected straightaway test gives the same answer whichever way the whole path is turned |
| BotAI.AsWrittenIsStricter | source/BotAI.c:981-997 | for corner angles in [0, 512), anything the C test calls straight the corrected test calls straight too |
| BotAI.SmallDiffSmallGap | source/BotAI.c:992-993 | for angles in [0, 512), a plain difference below half a turn equals the folded gap |
| BotAI.StraightawayAsWrittenMissesWrap | source/BotAI.c:981-997 | headings 511, 1, 3 fail the C test although the same straight turned by 2 (1, 3, 5) passes it; the corrected test calls it straight |
| BotAI.QuadrantAtPos | source/BotAI.c:1111-1115 | the quadrant grid is the one determineCarQuadrant uses, a value in 0..8 |
| BotAI.Bots.constructor | source/BotAI.c:15-17 | the statics start zeroed with an empty path |
| BotAI.Bots.Reset | source/BotAI.c:459-481 | an index outside 0..7 changes nothing; otherwise only that bot's record changes, to ResetState of it |
| BotAI.Bots.SetPersonality | source/BotAI.c:483-488 | an index outside 0..7 changes nothing; otherwise only that bot's base and working personality change, both to the given one |
| BotAI.Bots.CalculateSteeringTarget | source/BotAI.c:656-701 | returns the steering point and leaves the bot's record as SteeringTarget specifies; no other bot changes |
| BotAI.Bots.Lookahead | source/BotAI.c:660-670 | the speed-scaled radius is LookaheadDistance of the speed |
| BotAI.Bots.FindNearestCheckpointIndex | source/BotAI.c:1165-1182 | returns NearestCheckpoint of the waypoints in use |
| CarPhysics.ClampFriction | source/gameplay/Car.c:58-66 | the friction multiplier lies in [0, FIXED_ONE]: values inside are kept, negative ones become 0 and larger ones FIXED_ONE |
| CarPhysics.CopyName | source/gameplay/Car.c:44-51 | a copied name is a prefix of the given one, at most 31 characters, the whole name when it fits, and empty for a NULL name |
| CarPhysics.CapSpeed | source/gameplay/Car.c:169-171 | the capped speed never exceeds a positive maximum or the uncapped speed, and equals the speed when no cap applies |
| CarPhysics.UpdatedSpeedBounds | source/gameplay/Car.c:219-241 | friction never speeds a car up: a non-negative speed stays non-negative, does not grow, respects a positive cap, and (with a cap above the snap threshold) is either 0 or above that threshold |
| CarPhysics.Velocity | source/gameplay/Car.c:73-79 | a stopped car has the zero velocity |
| CarPhysics.AfterUpdate | source/gameplay/Car.c:219-241 | one update changes only friction, speed and position: friction is clamped and the car moves by its new velocity along its heading |
| CarPhysics.Car.constructor | source/gameplay/Car.c:114-131 | a new car is at the given position, stopped, facing angle 0, lap 0, rank 0, no checkpoint, no item, with clamped friction and the copied name |
| CarPhysics.Car.Reset | source/gameplay/Car.c:139-152 | race state goes back to the start at the spawn position while tuning and name persist |
| CarPhysics.Car.Accelerate | source/gameplay/Car.c:163-174 | only the speed changes, by the acceleration rate, capped at a positive maximum |
| CarPhysics.Car.Brake | source/gameplay/Car.c:181-196 | a car that is not moving forward is untouched; a step that would overshoot 0 stops the car; otherwise the speed drops by the rate |
| CarPhysics.Car.Steer | source/gameplay/Car.c:204-211 | only the facing angle changes, by the given amount, and it stays in [0, 512) |
| CarPhysics.Car.Update | source/gameplay/Car.c:219-241 | the car becomes AfterUpdate of its old state, with a non-negative speed that does not grow |
| CarPhysics.Car.SetPosition | source/gameplay/Car.c:305-310 | only the position changes |
| CarPhysics.Car.SetVelocity | source/gameplay/Car.c:87-103 | a zero vector stops the car and keeps its heading; any other vector sets speed to its capped length and heading to its angle |
| CarPhysics.Car.ApplyImpulse | source/gameplay/Car.c:331-338 | the car takes on its current velocity plus the impulse, as SetVelocity does |
| CarPhysics.Car.SetAngle | source/gameplay/Car.c:346-351 | only the facing angle changes, to the given angle wrapped into [0, 512) |
| CarPhysics.Car.LapComplete | source/gameplay/Car.c:362-367 | only the lap count changes, by one |
| WireFormat.LittleEndianRoundTrip | tools/network/test_multiplayer.py:53-54 | decoding the n little-endian bytes of any value below 256^n gives the value back |
| WireFormat.FromLittleEndianRoundTrip | tools/network/test_multiplayer.py:283 | every byte string is the little-endian encoding of the value it decodes to |
| WireFormat.PackU32 | tools/network/test_multiplayer.py:53-54 | the '<I' field packs exactly the values in [0, 2^32), into four bytes that unpack to the value |
| WireFormat.PackI32 | tools/network/test_multiplayer.py:101-102 | the '<i' field packs exactly the values in [-2^31, 2^31), into four bytes that unpack to the value |
| WireFormat.UnpackI32RoundTrip | tools/network/test_multiplayer.py:101-102 | any four bytes read as an int32 pack back to the same four bytes |
| WireFormat.TruncReal | tools/network/test_multiplayer.py:96-98 | int() of a float truncates toward zero: the result is within one of the value, below it for positive and above it for negative values |
| WireFormat.PackHeader | tools/network/test_multiplayer.py:53-54 | the header packs exactly when message type and player id fit a byte and the sequence a u32, giving 8 bytes: version, type, player, 0, then the sequence |
| WireFormat.DecodeHeader | tools/network/test_multiplayer.py:281-283 | the listener decodes a header exactly from datagrams of at least 8 bytes |
| WireFormat.LabelOf | tools/network/test_multiplayer.py:285 | message types below 7 are named, any other byte is UNKNOWN with its value |
| WireFormat.HeaderRoundTrip | tools/network/test_multiplayer.py:53-54 | a packed header followed by any payload decodes to version 1 and the packed type, player id, padding 0 and sequence |
| WireFormat.ReadyPayload | tools/network/test_multiplayer.py:68 | the lobby payload is 24 bytes: the ready flag as 0 or 1, then 23 zero bytes |
| WireFormat.CarPayload | tools/network/test_multiplayer.py:101-102 | the car payload packs exactly when all six fields fit int32, into 24 bytes that decode back to the same car state |
| WireFormat.WordSlices | tools/network/test_multiplayer.py:101-102 | six 4-byte words laid end to end are found again at offsets 0, 4, ..., 20 |
| WireFormat.ItemPlacedPayload | tools/network/test_multiplayer.py:118-119 | the item payload packs exactly when all five fields fit int32, into 24 bytes that decode back to the placement and end in 4 zero bytes |
| WireFormat.BoxPickupPayload | tools/network/test_multiplayer.py:130 | the pickup payload packs exactly when the index fits int32: the index in the first four bytes, then 20 zero bytes |
| WireFormat.DisconnectPayload | tools/network/test_multiplayer.py:141 | the disconnect payload is 24 zero bytes |
| WireFormat.PacketShape | tools/network/test_multiplayer.py:37-43 | every packet a builder produces is 32 bytes, starts with version, type, player id and 0, decodes to the header it was stamped with, and carries the payload after byte 8 |
| WireFormat.PacketBuilder.constructor | tools/network/test_multiplayer.py:46-48 | a new builder keeps the player id and starts at sequence 0 |
| WireFormat.PacketBuilder.StampHeader | tools/network/test_multiplayer.py:53-55 | packs the header with the current sequence number and increments it when the pack succeeds |
| WireFormat.PacketBuilder.BuildLobbyJoin | tools/network/test_multiplayer.py:50-60 | the packet is the stamped LOBBY_JOIN header plus a not-ready lobby payload; the sequence advances by one |
| WireFormat.PacketBuilder.BuildLobbyUpdate | tools/network/test_multiplayer.py:62-70 | the packet is the stamped LOBBY_UPDATE header plus the ready flag payload; the sequence advances by one |
| WireFormat.PacketBuilder.BuildReady | tools/network/test_multiplayer.py:72-80 | the packet is the stamped READY header plus the ready flag payload; the sequence advances by one |
| WireFormat.PacketBuilder.BuildCarUpdate | tools/network/test_multiplayer.py:82-104 | the packet is the stamped CAR_UPDATE header plus the car payload with position and speed truncated to Q16.8; none when a field does not fit |
| WireFormat.PacketBuilder.BuildItemPlaced | tools/network/test_multiplayer.py:106-121 | the packet is the stamped ITEM_PLACED header plus the item payload with position and speed in Q16.8; none when a field does not fit |
| WireFormat.PacketBuilder.BuildItemBoxPickup | tools/network/test_multiplayer.py:123-132 | the packet is the stamped ITEM_BOX_PICKUP header plus the pickup payload; none when the index does not fit |
| WireFormat.PacketBuilder.BuildDisconnect | tools/network/test_multiplayer.py:134-143 | the packet is the stamped DISCONNECT header plus 24 zero bytes; the sequence advances by one |
| WireFormat.ConsecutiveSequenceNumbers | tools/network/test_multiplayer.py:46-55 | a fresh builder's first three packets decode with sequence numbers 0, 1 and 2 |
| DsSimulator.Lower | tools/network/simulate_ds_player.py:257 | lower-casing maps capital letters to small ones and leaves every other character alone |
| DsSimulator.Clamp | tools/network/simulate_ds_player.py:188-189 | a coordinate is kept inside [50, 950], unchanged when already inside |
| DsSimulator.SimulatedPlayer.constructor | tools/network/simulate_ds_player.py:66-100 | a new player starts at sequence 0, not ready, in the lobby, running, at 100 + 20 * id on both axes, stopped, angle 0, lap 1, no item, no packets counted |
| DsSimulator.SimulatedPlayer.Transmit | tools/network/simulate_ds_player.py:102-107 | the header takes the current sequence number, which then advances even when sendto fails; only a delivered packet is logged and counted, and every logged packet is stamped with this player's id and a strictly larger sequence number |
| DsSimulator.SimulatedPlayer.SendLobbyJoin | tools/network/simulate_ds_player.py:109-115 | sends LOBBY_JOIN with the ready flag; a failed pack or send raises and nothing is counted |
| DsSimulator.SimulatedPlayer.SendLobbyUpdate | tools/network/simulate_ds_player.py:117-126 | sends the heartbeat; a send error is swallowed and the heartbeat time moves only when the packet went out |
| DsSimulator.SimulatedPlayer.SendReady | tools/network/simulate_ds_player.py:128-134 | sends READY carrying the current ready flag; a failed pack or send raises |
| DsSimulator.SimulatedPlayer.SendCarUpdate | tools/network/simulate_ds_player.py:136-147 | sends the car state in Q16.8; a field outside int32 raises before a sequence number is used |
| DsSimulator.SimulatedPlayer.SendItemPlaced | tools/network/simulate_ds_player.py:149-160 | sends the item at the car's position and angle with speed 10.0 (2560 in Q16.8) |
| DsSimulator.SimulatedPlayer.SendDisconnect | tools/network/simulate_ds_player.py:162-171 | sends DISCONNECT with 24 zero bytes; a send error is swallowed |
| DsSimulator.SimulatedPlayer.Receive | tools/network/simulate_ds_player.py:191-212 | a datagram is counted and labelled exactly when it is at least 8 bytes and not from this player; nothing else changes |
| DsSimulator.SimulatedPlayer.HandleLobbyInput | tools/network/simulate_ds_player.py:251-263 | space, newline and CR toggle the ready flag and send READY with the new value, changing only the flag, the sequence number, the send counter and the sent log; r (any case) enters the race, q stops, other keys change nothing |
| DsSimulator.SimulatedPlayer.HandleRaceInput | tools/network/simulate_ds_player.py:296-312 | b and g send one ITEM_PLACED for a banana or a green shell, placed at the car's Q16.8 position and angle with speed 2560 (10.0), consuming a sequence number when packing succeeds and appending the packet to the sent log only when the send succeeds; l leaves the race, clears ready and sends a not-ready LOBBY_JOIN, changing nothing else but the sequence number, the send counter and the sent log; q stops; other keys change nothing |
| DsSimulator.SimulatedPlayer.HeartbeatIfDue | tools/network/simulate_ds_player.py:229-231 | before a second has passed nothing changes; after that, one LOBBY_UPDATE carrying is_ready is packed (consuming a sequence number), and a successful send is logged, counted in packets_sent and moves last_heartbeat to the clock reading taken after the send; a send error is swallowed |
| DsSimulator.SimulatedPlayer.UpdateCarPhysics | tools/network/simulate_ds_player.py:173-189 | the angle advances by 5 modulo 512, the speed becomes 5.0 and the moved position is clamped to [50, 950] |
| DsSimulator.SimulatedPlayer.CarUpdateIfDue | tools/network/simulate_ds_player.py:279-283 | before 1/15 s has passed nothing changes; after that the car moves (angle + 5 mod 512, speed 5.0, clamped position) and one CAR_UPDATE with the moved state is sent, with the sequence, packets_sent and sent log updated as for a single send; the update time becomes the clock reading taken after the send, exactly when the send did not raise |
| Multiplayer.U32Sub | source/multiplayer.c:414 | uint32_t subtraction lies in [0, 2^32) and is the plain difference when no wrap occurs |
| Multiplayer.LobbyPacket | source/multiplayer.c:345-348 | a lobby packet is 32 bytes: version 1, the type, the player id, padding 0, the ready flag, and zeros everywhere else |
| Multiplayer.CarPacket | source/multiplayer.c:455-466 | the car packet is 32 bytes headed by version, CAR_UPDATE and the id, and a receiver applying it to any car reproduces exactly the sender's position, speed, angle, lap and item |
| Multiplayer.Fill | source/multiplayer.c:374 | a read overwrites the leading bytes of the 32-byte buffer; a datagram of 32 bytes or more replaces it with its first 32 bytes |
| Multiplayer.ApplyLobbyPacket | source/multiplayer.c:376-405 | a packet with the wrong version, an id of 8 or more, or the local id changes nothing; JOIN connects the sender not ready, UPDATE and READY connect it with the carried flag, DISCONNECT drops it; other types and other slots are untouched |
| Multiplayer.ReceiveLobby | source/multiplayer.c:374-406 | the receive loop applies every read in order and never changes the local player's slot |
| Multiplayer.TimeOut | source/multiplayer.c:409-421 | afterwards every connected peer other than the local player was heard from within 3000 ms; the pass only disconnects, never touches the local slot or a timestamp, and leaves recently heard slots unchanged |
| Multiplayer.ResetOthers | source/multiplayer.c:274-282 | every slot but the local one is disconnected and not ready; the local slot and all timestamps are kept |
| Multiplayer.ReadyCountIff | source/multiplayer.c:424-434 | ready players never outnumber connected ones, and the two counts agree exactly when every connected player is ready |
| Multiplayer.ReadyToStartIff | source/multiplayer.c:436-437 | the race may start exactly when at least two players are connected and every connected player is ready |
| Multiplayer.ReceiveCars | source/multiplayer.c:468-495 | cars at or beyond carCount and the local car never change, no ready flag changes, and no connected player is disconnected; the value each other car ends with is stated by Multiplayer.ReceiveCarsLastPacketWins |
| Multiplayer.CarStep | source/multiplayer.c:472-494 | one read keeps the inbox well formed; a datagram with the wrong version, another type, an id of carCount or more, or the local id only leaves its bytes in the buffer, with cars, players and clock unchanged; an accepted one overwrites exactly its sender's car with the packet's position, speed, angle, lap and item, and marks only that sender connected with the next tick |
| Multiplayer.ReceiveCarsLastPacketWins | source/multiplayer.c:472-494 | after the loop, a car and slot that no accepted packet names are as they were; a named car holds the fields of the last accepted packet from its sender, which lies below carCount, is not the local player and is connected |
| Multiplayer.Lobby.constructor | source/multiplayer.c:70-76 | before Multiplayer_Init no player id is set, nothing is initialised, all slots are empty and both clocks are 0 |
| Multiplayer.Lobby.GetTimeMs | source/multiplayer.c:86-89 | the millisecond counter advances by 16 modulo 2^32 and is returned; nothing else changes |
| Multiplayer.Lobby.Init | source/multiplayer.c:169-268 | a second Init first announces DISCONNECT; without Wi-Fi or socket it returns -1 and leaves the table; otherwise the id is the last MAC byte modulo 8 and only that slot is connected, not ready, stamped with the new time |
| Multiplayer.Lobby.Cleanup | source/multiplayer.c:284-302 | an initialised session announces DISCONNECT, forgets its id and the broadcast time and becomes uninitialised; otherwise nothing changes |
| Multiplayer.Lobby.GetConnectedCount | source/multiplayer.c:312-320 | returns the number of connected slots, between 0 and 8 |
| Multiplayer.Lobby.IsPlayerConnected | source/multiplayer.c:322-327 | ids outside 0..7 are never connected |
| Multiplayer.Lobby.IsPlayerReady | source/multiplayer.c:329-334 | ids outside 0..7 are never ready |
| Multiplayer.Lobby.ResetLobbyState | source/multiplayer.c:274-282 | the peer table becomes ResetOthers of the old table |
| Multiplayer.Lobby.JoinLobby | source/multiplayer.c:340-355 | other players are forgotten, a not-ready LOBBY_JOIN is sent, the local player is not ready and the broadcast time is a fresh tick; afterwards nobody is ready |
| Multiplayer.Lobby.Heartbeat | source/multiplayer.c:361-371 | when at least 1000 ms passed since the last broadcast a LOBBY_UPDATE with the local flag is sent and the local slot and broadcast time take the current time; otherwise nothing changes |
| Multiplayer.Lobby.ReceiveLobbyPackets | source/multiplayer.c:373-406 | the table becomes ReceiveLobby of the reads |
| Multiplayer.Lobby.ExpirePeers | source/multiplayer.c:408-421 | the table becomes TimeOut of the old table |
| Multiplayer.Lobby.CountPlayers | source/multiplayer.c:423-434 | returns the number of connected players and the number of connected ready players |
| Multiplayer.Lobby.UpdateLobby | source/multiplayer.c:357-438 | one tick, the heartbeat when due, every read applied, the timeout pass; returns true exactly when at least two players are connected and all of them are ready |
| Multiplayer.Lobby.SetReady | source/multiplayer.c:440-449 | only the local ready flag changes, and a READY packet with that flag is sent |
| Multiplayer.Lobby.SendCarState | source/multiplayer.c:455-466 | exactly one packet is sent, the car packet of the current car state with the id narrowed to a byte |
| Multiplayer.Lobby.ReceiveCarPacket | source/multiplayer.c:472-494 | one read changes players, cars and clock exactly as CarStep says |
| Multiplayer.Lobby.OverwriteCar | source/multiplayer.c:484-489 | the car takes the packet's position, speed, angle, lap and item and keeps its other fields |
| Multiplayer.Lobby.MarkHeard | source/multiplayer.c:491-493 | the sender becomes connected and is stamped with a fresh tick; other slots keep their values |
| Multiplayer.Lobby.ReceiveCarStates | source/multiplayer.c:468-495 | players, cars and clock become ReceiveCars of the reads |
| Multiplayer.PythonReadyFlagIsSequenceByte | source/multiplayer.c:28-39 | the device reads a Python READY as ready exactly when the Python sequence number is not a multiple of 256, whatever flag it carries, because the Python header is 8 bytes and the device's 4 |
| Multiplayer.PythonItemPlacedDisconnects | source/multiplayer.c:20-26 | Python's ITEM_PLACED (4) reaches the device as DISCONNECT and drops the sender from the peer table |
| Multiplayer.PythonDisconnectIgnored | source/multiplayer.c:398-404 | Python's DISCONNECT (6) is a type the device ignores, so a leaving Python client is only dropped by the timeout |
| WallCollision.QuadrantWalls | source/gameplay/wall_collision.c:7-121 | each of the nine quadrants has between 5 and 11 wall segments |
| WallCollision.SegmentCollision | source/gameplay/wall_collision.c:127-142 | a car collides with a horizontal wall exactly when it is within radius of the wall's y and its x range widened by the radius overlaps the wall; a vertical wall the other way round |
| WallCollision.CheckCollision | source/gameplay/wall_collision.c:144-157 | returns true exactly when the quadrant is valid and some of its segments collide; an invalid quadrant never collides |
| WallCollision.CandidateOf | source/gameplay/wall_collision.c:173-189 | a wall whose range contains the car's coordinate offers a non-negative distance and a unit normal along one axis |
| WallCollision.NormalScan | source/gameplay/wall_collision.c:167-190 | the normal comes from the nearest candidate wall, the earliest one on ties; with no candidate nearer than 9999 it is (0, 0); at most one component is non-zero and each lies in {-1, 0, 1} |
| WallCollision.GetCollisionNormal | source/gameplay/wall_collision.c:159-194 | writes the nearest wall's normal, with components in {-1, 0, 1} and at most one non-zero; (0, 0) for an invalid quadrant |
| WallCollision.OnTheWallPointsDown | source/gameplay/wall_collision.c:174-178 | a car exactly on a horizontal wall's line gets the normal (0, -1) at distance 0, since the comparison is strict |
| WallCollision.CornerCollisionHasNoNormal | source/gameplay/wall_collision.c:103-108 | a car at (1010, 1010) with radius 16 collides with the bottom-right quadrant's walls, yet the normal is (0, 0) because its coordinates lie outside every segment's range |
| GameplayLogic.CountdownStep | source/gameplay/gameplay_logic.c:393-432 | raceCanStart changes only on the step from GO to FINISHED, and FINISHED is never left |
| GameplayLogic.CountdownCompose | source/gameplay/gameplay_logic.c:393-432 | a + b countdown calls are a calls followed by b calls |
| GameplayLogic.CountdownHolds | source/gameplay/gameplay_logic.c:396-416 | within a phase the state holds and the timer counts the calls |
| GameplayLogic.CountdownFinishedStays | source/gameplay/gameplay_logic.c:428-430 | FINISHED is absorbing; only its timer keeps counting |
| GameplayLogic.CountdownPhaseEnds | source/gameplay/gameplay_logic.c:398-401 | a phase entered with timer 0 ends on exactly the 60th call |
| GameplayLogic.CountdownAfterIsAt | source/gameplay/gameplay_logic.c:393-432 | n calls from the start state reach the state the phase table gives: 3, 2, 1 and GO for 60 calls each with the timer counting from 0, then FINISHED with the race allowed to start |
| GameplayLogic.CountdownInPhase | source/gameplay/gameplay_logic.c:393-432 | inside a phase entered at call base, the timer equals the calls made since base |
| GameplayLogic.CountdownTimeline | source/gameplay/gameplay_logic.c:129-135 | for every n: 3, 2, 1 and GO each last 60 calls with the timer counting from 0; the countdown is active exactly for n < 240 and the race may start exactly from n = 240 |
| GameplayLogic.CheckpointUpdate | source/gameplay/gameplay_logic.c:437-475 | the current left/top flags are always recorded, the finish-line flags are kept, progress stays or moves on one step, each step needs its own side change (into the top half, into the left half, out of the top half, out of the left half), and READY_FOR_LAP is kept |
| GameplayLogic.CheckpointRunBound | source/gameplay/gameplay_logic.c:437-475 | over any run progress never goes back and grows by at most one per call, so a car at START needs at least four calls to become READY_FOR_LAP |
| GameplayLogic.OneCircuitIsReady | source/gameplay/gameplay_logic.c:437-475 | four sprite centres, one in each quarter of the map going round from the spawn side, take a freshly spawned car to READY_FOR_LAP |
| GameplayLogic.FinishLineUpdate | source/gameplay/gameplay_logic.c:480-498 | a lap counts exactly on an upward crossing of the line by a car that is READY_FOR_LAP and whose first crossing was already consumed; the above-line flag is always recorded, the first crossing is consumed on any upward crossing, and a counted lap resets the car to START |
| GameplayLogic.SpawnValue | source/gameplay/gameplay_logic.c:520-559 | a spawned car is stopped at lap 0 with no item and keeps its name; spawn index p gives rank p + 1, a negative index puts the car off the map at (-1000, -1000) with rank 99 |
| GameplayLogic.SpawnGrid | source/gameplay/gameplay_logic.c:539-543 | spawn p is at (904 + 32 * (p mod 2), 580 + 24 * p), different indices give different positions, and every spawn centre is in the bottom-right quarter below the finish line |
| GameplayLogic.ConnectedIds | source/gameplay/gameplay_logic.c:182-189 | the list holds connected ids only, each a valid slot, in strictly increasing order |
| GameplayLogic.ConnectedIdsPrefix | source/gameplay/gameplay_logic.c:185-189 | the ids collected from the first m slots are a prefix of the full list |
| GameplayLogic.ConnectedIdsSnoc | source/gameplay/gameplay_logic.c:185-189 | scanning one more slot appends its id exactly when it is connected |
| GameplayLogic.SpawnOfIndexes | source/gameplay/gameplay_logic.c:194-201 | a connected slot's spawn position is the index of its own id in the connected list |
| GameplayLogic.SpawnOrder | source/gameplay/gameplay_logic.c:192-207 | connected players get distinct spawn positions, in the order of their ids, all below the number of connected players |
| GameplayLogic.ResetTrackers | source/gameplay/gameplay_logic.c:554-558 | after spawning, the first n trackers are fresh and the rest are unchanged |
| GameplayLogic.LapCounts | source/gameplay/gameplay_logic.c:168-174 | only the missing map has no laps, multiplayer never races fewer laps than single player, and the two differ exactly on Scorching Sands |
| GameplayLogic.CarQuadrant | source/gameplay/gameplay_logic.c:645-649 | the quadrant lies in 0..8; its column is 0 exactly left of x = 256 and 2 exactly from x = 512, and likewise its row in y; the sub-screen's determineQuadrant in gameplay.c is the same grid and uses this function |
| GameplayLogic.WallNormal | source/gameplay/gameplay_logic.c:614-619 | the push normal has at most one non-zero component, each in {-1, 0, 1} |
| GameplayLogic.WallPushAt | source/gameplay/gameplay_logic.c:611-612 | the wall test is taken at the sprite centre, 16 pixels right of and below the position |
| GameplayLogic.ClampCoord | source/gameplay/gameplay_logic.c:631-642 | a coordinate is clamped into [IntToFixed(-16), IntToFixed(1008)], unchanged when already inside |
| GameplayLogic.ClampedValue | source/gameplay/gameplay_logic.c:609-643 | only position and speed change; both coordinates end in [IntToFixed(-16), IntToFixed(1008)]; a non-zero wall normal stops the car, otherwise the speed is kept |
| GameplayLogic.ClampKeepsInsideCar | source/gameplay/gameplay_logic.c:609-643 | a car inside the map and clear of every wall is left exactly as it was |
| GameplayLogic.Scroll | source/gameplay/gameplay_logic.c:298-309 | the camera stays within [0, MAX_SCROLL_X] x [0, MAX_SCROLL_Y] and centres the sprite whenever that is possible |
| GameplayLogic.ScrollMonotone | source/gameplay/gameplay_logic.c:298-309 | a car further right or down never scrolls the camera less far |
| GameplayLogic.RaceController.constructor | source/gameplay/gameplay_logic.c:50-65 | the statics start zeroed: no race, no map, countdown at 3 with timer 0, every tracker fresh and every lockout 0 |
| GameplayLogic.RaceController.UpdateCountdown | source/gameplay/gameplay_logic.c:393-432 | the countdown becomes CountdownStep of the old one and nothing else changes |
| GameplayLogic.RaceController.MarkAsCompleted | source/gameplay/gameplay_logic.c:281-291 | the race is finished with the given time and a 300-frame delay, so it is no longer active |
| GameplayLogic.RaceController.InitCarAtSpawn | source/gameplay/gameplay_logic.c:520-559 | the car becomes SpawnValue of its old state; a non-negative spawn index also gets a fresh tracker at that index |
| GameplayLogic.RaceController.CollectConnected | source/gameplay/gameplay_logic.c:182-189 | returns the connected ids in ascending order |
| GameplayLogic.RaceController.FindSpawnPosition | source/gameplay/gameplay_logic.c:195-201 | returns the slot's rank among the connected ids |
| GameplayLogic.RaceController.SpawnSlot | source/gameplay/gameplay_logic.c:193-206 | a connected slot spawns at its rank, a disconnected one off the map; its lockout becomes 0 |
| GameplayLogic.RaceController.InitMultiplayerCars | source/gameplay/gameplay_logic.c:177-208 | all eight cars take part, each car spawns at SpawnOf its slot, the first (number connected) trackers are fresh and every lockout is 0 |
| GameplayLogic.RaceController.SpawnByRank | source/gameplay/gameplay_logic.c:185-207 | every slot in id order: a connected slot spawns at its rank among the connected ids, any other off the map, the first (number connected) trackers become fresh and every lockout is 0 |
| GameplayLogic.RaceController.SpawnInSlotOrder | source/gameplay/gameplay_logic.c:269-272 | each racing car k spawns at position k with a fresh tracker and lockout 0; the other cars are untouched |
| GameplayLogic.RaceController.InitSinglePlayerCars | source/gameplay/gameplay_logic.c:211-219 | one car races, the player's car 0 at spawn 0; the other cars are untouched |
| GameplayLogic.RaceController.RestartRace | source/gameplay/gameplay_logic.c:254-267 | the race runs again with no finish time, no delay and the countdown at its start |
| GameplayLogic.RaceController.InitState | source/gameplay/gameplay_logic.c:146-165 | records map and mode, restarts the race and the countdown, and marks a multiplayer race exactly for MultiPlayer mode |
| GameplayLogic.RaceController.ConfigureLaps | source/gameplay/gameplay_logic.c:168-174 | only the lap count changes: 5 for multiplayer on Scorching Sands, otherwise the map's default |
| GameplayLogic.RaceController.Init | source/gameplay/gameplay_logic.c:224-242 | the missing map changes nothing; any other map starts an active race with an active countdown, its lap count, checkpoint count 0 and the cars on the multiplayer or single-player grid |
| GameplayLogic.RaceController.Reset | source/gameplay/gameplay_logic.c:244-273 | without a map nothing changes; otherwise the race restarts and every racing car is back at the spawn of its own slot |
| GameplayLogic.RaceController.Stop | source/gameplay/gameplay_logic.c:275-279 | only raceStarted changes, to false, so the race is no longer active |
| GameplayLogic.RaceController.CheckCheckpointProgression | source/gameplay/gameplay_logic.c:437-475 | only the car's own tracker changes, to CheckpointUpdate at its sprite centre |
| GameplayLogic.RaceController.CheckFinishLineCross | source/gameplay/gameplay_logic.c:480-498 | only the car's own tracker changes, as FinishLineUpdate says, and the result is whether a lap was completed |
| GameplayLogic.RaceController.WallNormalAt | source/gameplay/gameplay_logic.c:614-619 | returns the collision normal when the car collides in its quadrant and (0, 0) otherwise |
| GameplayLogic.RaceController.PushOffWall | source/gameplay/gameplay_logic.c:616-628 | a non-zero normal moves the car CAR_RADIUS (16) pixels along it, stops it and locks it out for 60 frames; otherwise nothing changes |
| GameplayLogic.RaceController.ClampPosition | source/gameplay/gameplay_logic.c:631-642 | only the position changes, each coordinate clamped by ClampCoord |
| GameplayLogic.RaceController.ClampToMapBounds | source/gameplay/gameplay_logic.c:609-643 | the car becomes ClampedValue of its old state; the lockout is set to 60 exactly when it was pushed |
| GameplayLogic.RaceController.Tick | source/gameplay/gameplay_logic.c:326-364 | a finished race only counts the delay down, never below 0; a stopped race changes nothing; an active race updates, pushes and clamps the player's car, advances its checkpoints from the clamped position and counts its lockout down |
| GameplayLogic.RaceController.StepPlayer | source/gameplay/gameplay_logic.c:353-361 | during a race the player's car becomes MovedCar of its old value (updated, pushed off a wall, clamped), only its own tracker advances from the new sprite centre and only its own lockout changes, restarted by a wall push and counted down |
| GameplayLogic.StaleSlotTrackerSurvivesInit | source/gameplay/gameplay_logic.c:554-558 | with only player 1 connected its spawn index is 0, so the tracker of slot 1 is not reset, and a READY_FOR_LAP left there counts a lap on the next upward crossing |
| GameplayScreen.TickAddsOneMillisecond | source/gameplay/gameplay.c:154-160 | one chronometer tick keeps minutes, seconds and milliseconds in range and adds exactly one millisecond to the time |
| GameplayScreen.TicksCountMilliseconds | source/gameplay/gameplay.c:148-170 | n ticks from a valid time reach the valid time exactly n milliseconds later |
| GameplayScreen.FillRow | source/gameplay/gameplay.c:1026-1028 | the inner loop writes the glyph's tiles into one row of the block and leaves every other map cell unchanged |
| GameplayScreen.FillBlock | source/gameplay/gameplay.c:1025-1028 | the nested loops fill exactly the 8-row block with the glyph's tiles and leave every other cell unchanged |
| GameplayScreen.PrintDigit | source/gameplay/gameplay.c:1022-1040 | a digit becomes an 8 x 4 block of its 32 tiles, a negative number a block of blank tiles, ':' and '.' 8 x 2 blocks, and 12 or more leaves the map unchanged |
| GameplayScreen.PrintedBlock | source/gameplay/gameplay.c:1022-1040 | printDigit writes only inside its block, a digit's cells all belong to that digit's tiles, a negative number writes the blank tile, and 12 or more writes nothing |
| GameplayScreen.PrintShowsDigit | source/gameplay/gameplay.c:1024-1028 | a printed digit block reads back as that digit, or as blank when the number is negative |
| GameplayScreen.PrintElsewhere | source/gameplay/gameplay.c:1022-1040 | printing a block leaves unchanged the number shown by any block it does not cover |
| GameplayScreen.UpdateChronoDisp | source/gameplay/gameplay.c:1042-1107 | the map after the call is the mm:ss.mmm display on row 8 (two minute digits, ':', two second digits, '.', three millisecond digits) |
| GameplayScreen.ChronoShowsMinutes | source/gameplay/gameplay.c:1046-1059 | minutes 0..59 are shown as their tens and units digits; any other value is shown as two blanks |
| GameplayScreen.ChronoShowsSeconds | source/gameplay/gameplay.c:1067-1080 | seconds 0..59 are shown as their tens and units digits; any other value is shown as two blanks |
| GameplayScreen.ChronoShowsMilliseconds | source/gameplay/gameplay.c:1088-1106 | milliseconds 0..999 are shown as hundreds, tens and units digits; any other value is shown as three blanks |
| GameplayScreen.UpdateLapDisp | source/gameplay/gameplay.c:1117-1143 | the map after the call is the lap counter: current lap, ':' and the total laps as one or two digits |
| GameplayScreen.LapShowsLaps | source/gameplay/gameplay.c:1117-1143 | a current lap in 0..9 is shown (otherwise the old digit stays), and a total up to 99 is shown as one or two digits |
| GameplayScreen.BestShownIsFastest | source/gameplay/gameplay.c:254-273 | after the save, with a well-formed file that has room, the best time shown is the old record if this race did not beat it and this race's time otherwise |
| GameplayScreen.RaceScreen.constructor | source/gameplay/gameplay.c:148-170 | the statics start at zero times, no best time, lap 1, nothing saved |
| GameplayScreen.RaceScreen.StartRace | source/gameplay/gameplay.c:175-206 | both chronometers at zero, lap 1, counters cleared, and the best time is the one stored for the map or -1:-1.-1 when none is stored |
| GameplayScreen.RaceScreen.IncrementTimer | source/gameplay/gameplay.c:148-170 | once the race is completed nothing changes; otherwise the lap and total chronometers each advance one tick and nothing else changes |
| GameplayScreen.RaceScreen.SaveFinalTime | source/gameplay/gameplay.c:254-273 | the total time is offered to the best-times file; the new-record flag is the save's result, the best time is the one read back (or the total time when none is found), and the saved flag is set |
| GameplayScreen.RaceScreen.Update | source/gameplay/gameplay.c:240-290 | SELECT stops the race and goes home; otherwise the best time is saved once after the finish, the display counter counts frames after the finish delay, and after 150 frames the screen goes home in multiplayer or to play-again otherwise |
| TextFile.FgetsLines | source/storage/storage.c:88-90 | successive fgets reads return non-empty pieces that fit the buffer and whose concatenation is the whole file |
| TextFile.ReadBackFullLines | source/storage/storage_pb.c:116-117 | a file written as whole lines (each ending in its only newline and fitting the buffer) is read back by fgets as exactly those lines |
| Storage.LastFlag | source/storage/storage.c:87-98 | a flag that no line sets keeps its default of 1 |
| Storage.DefaultsWritten | source/storage/storage.c:38-48 | the defaults are written exactly when the file can be created, and the content is `wifi=1`, `music=1`, `soundfx=1`, one per line |
| Storage.KeysDisjoint | source/storage/storage.c:91-97 | a line starting with one key never starts with another, so at most one branch of the read loop applies to it |
| Storage.SettingLineFlag | source/storage/storage.c:92-96 | a line written for a key starts with that key, and the character after '=' reads back as the value written |
| Storage.SettingsReadBack | source/storage/storage.c:118-120 | the file Save writes is read back as its three lines, in order |
| Storage.SaveThenLoad | source/storage/storage.c:90-104 | saving the three settings and loading them back gives the same three settings |
| Storage.UserSettings.constructor | source/storage/storage.c:103-105 | the context's settings hold the values given |
| Storage.UserSettings.LoadSettings | source/storage/storage.c:80-108 | an unreadable file gives false and leaves the settings unchanged; otherwise true, and each flag is set by the last line of its key, or to on when no line has it |
| Storage.ReadSettingLines | source/storage/storage.c:87-98 | the three flags read from the lines are SettingsFrom of those lines: each is on by default and set by the last line that starts with its key |
| Storage.SettingsFromStep | source/storage/storage.c:91-97 | one more line changes at most one flag: the one whose key it starts with, checked in the order wifi, music, soundfx; any other line changes nothing |
| Storage.UserSettings.SaveSettings | source/storage/storage.c:111-124 | nothing is written when the file cannot be created; otherwise the file holds the three key lines of the current settings, in order |
| Storage.UserSettings.ResetToDefaults | source/storage/storage.c:127-132 | when the file can be created the defaults are written and every flag ends up on; otherwise false and nothing changes |
| StoragePB.MapToString | source/storage/storage_pb.c:13-24 | the name is "Unknown" exactly for a map that is not one of the three; every name is non-empty and has no '=' or newline |
| StoragePB.MapToStringInjective | source/storage/storage_pb.c:13-24 | no two maps share a name |
| StoragePB.IsTimeFasterStrictOrder | source/storage/storage_pb.c:27-37 | the comparison is irreflexive, asymmetric and transitive |
| StoragePB.IsTimeFasterMeansShorter | source/storage/storage_pb.c:27-37 | on valid chronometer times, faster means exactly fewer milliseconds in total |
| StoragePB.ScanName | source/storage/storage_pb.c:119 | the name `%[^=]` assigns is non-empty and holds no '=' |
| StoragePB.ScanRecord | source/storage/storage_pb.c:81 | a line read as a full record carries the same name the name-only scan reads |
| StoragePB.Decimal | source/storage/storage_pb.c:122-123 | the digits printf writes for a non-negative number are decimal digits whose value is the number |
| StoragePB.ScanPadInt | source/storage/storage_pb.c:81 | `%d` reads back the value `%0wd` wrote, positive or negative, and stops at the next non-digit |
| StoragePB.RecordRoundTrip | source/storage/storage_pb.c:81 | scanning a formatted `Name=MM:SS.mmm` line gives back the name and the time, for any name without '=' |
| StoragePB.FindRecordFirst | source/storage/storage_pb.c:76-90 | the time found is that of the first line read as a record of the map, and nothing is found exactly when no line is one |
| StoragePB.FindBestTime | source/storage/storage_pb.c:76-90 | the read loop stops at the first record of the map and returns its time, or nothing |
| StoragePB.LoadBestTime | source/storage/storage_pb.c:66-94 | an unopenable file gives nothing; otherwise the time of the first line whose record names the map |
| StoragePB.RewriteKeepsOrder | source/storage/storage_pb.c:114-131 | the rewrite keeps the readable lines in order up to the room left, replaces each of the map's lines in place by the new line, and reports a replacement exactly when one was the map's |
| StoragePB.ReadKeptLines | source/storage/storage_pb.c:114-134 | the read loop of Save produces the kept lines and the replaced flag of the rewrite, stopping after ten lines |
| StoragePB.SaveBestTime | source/storage/storage_pb.c:97-155 | the result and the file left are those of the save outcome: no write when the old record is not beaten or the file cannot be created, else the rewritten lines plus the new line when none was replaced and there is room |
| StoragePB.SaveRejectsSlower | source/storage/storage_pb.c:100-107 | a time that does not strictly beat the stored record gives false and leaves the file as it was |
| StoragePB.SaveNeedsWritableFile | source/storage/storage_pb.c:144-147 | a file that cannot be created for writing gives false and is left as it was |
| StoragePB.FormatRecordFits | source/storage/storage_pb.c:122-123 | a valid time below 100 minutes is written as one whole line that fits the 64-byte read buffer |
| StoragePB.SaveThenLoad | source/storage/storage_pb.c:97-155 | after a successful save of a valid time, loading finds that time, unless the table was already full with ten readable lines of other maps, in which case no record of the map is found |
| ItemNavigation.WaypointsFor | source/gameplay/items/item_navigation.c:151-164 | Scorching Sands has its 119 waypoints; every other map has none |
| ItemNavigation.WaypointsFormOneCycle | source/gameplay/items/item_navigation.c:8-148 | each Scorching Sands waypoint leads to the next one and the last leads back to 0, one cycle through all 119 |
| ItemNavigation.GetWaypointPosition | source/gameplay/items/item_navigation.c:188-197 | an index out of range, or a map without waypoints, gives the zero vector; otherwise the position of that waypoint |
| ItemNavigation.GetNextWaypoint | source/gameplay/items/item_navigation.c:199-208 | an index out of range, or a map without waypoints, gives 0; otherwise the waypoint's successor |
| ItemNavigation.NextWaypointStaysOnLoop | source/gameplay/items/item_navigation.c:199-208 | on Scorching Sands every answer is a valid index, and for a valid index it is one step round the loop |
| ItemNavigation.NearestWaypointIsFirstClosest | source/gameplay/items/item_navigation.c:166-186 | the answer is 0 for a map without waypoints; otherwise a valid index no waypoint is nearer than, with every earlier waypoint strictly farther |
| ItemNavigation.FindNearestWaypoint | source/gameplay/items/item_navigation.c:166-186 | the running-minimum loop returns the first nearest waypoint, a valid index when the map has waypoints |
| ItemEffects.Boosted | source/gameplay/items/items_effects.c:66-73 | the boost is on with a full timer, the remembered top speed is the one from before the first boost, and the car's top speed becomes the boost multiple of it |
| ItemEffects.EffectsTickCases | source/gameplay/items/items_effects.c:23-55 | an active timer drops by one and its effect ends once it is at most 0; an expiring boost restores the old top speed and caps the speed to it; the oil slow ends exactly once the car is 64 pixels from where it started |
| ItemEffects.BoostRunning | source/gameplay/items/items_effects.c:33-44 | while a boost has ticks left it stays on, its timer counts down one per tick and the boosted top speed is kept |
| ItemEffects.BoostLastsItsDuration | source/gameplay/items/items_effects.c:33-44 | a fresh or renewed boost doubles the top speed for exactly SPEED_BOOST_DURATION ticks, and the tick after restores the top speed from before the first boost |
| ItemEffects.EffectsTicksSplit | source/gameplay/items/items_effects.c:23-55 | n + 1 ticks are n ticks followed by one more |
| ItemEffects.BoostTwiceDoesNotStack | source/gameplay/items/items_effects.c:67-70 | boosting an already boosted car renews the timer but keeps the top speed at twice the original |
| ItemEffects.PlayerItemEffects.constructor | source/gameplay/items/items_state.c:13 | the effects static starts with every field zero |
| ItemEffects.PlayerItemEffects.Clear | source/gameplay/items/items_state.c:36 | every field of the effects is zero |
| ItemEffects.PlayerItemEffects.UpdatePlayerEffects | source/gameplay/items/items_effects.c:23-55 | the new effects and car are exactly one tick of every active effect |
| ItemEffects.PlayerItemEffects.ApplyConfusion | source/gameplay/items/items_effects.c:61-64 | confusion is on with the full mushroom duration; nothing else changes |
| ItemEffects.PlayerItemEffects.ApplySpeedBoost | source/gameplay/items/items_effects.c:66-73 | the effects and the car become the boosted ones, and nothing else changes |
| ItemEffects.PlayerItemEffects.ApplyOilSlow | source/gameplay/items/items_effects.c:75-82 | the speed is halved, truncating toward zero; the slow is on and starts at the car's position; nothing else changes |
| ItemState.BoxLayout | source/gameplay/items/items_state.c:58-79 | Scorching Sands starts with its six boxes at their fixed positions, all active with no respawn pending; every other map has none |
| ItemState.ActiveCountIsActiveSlots | source/gameplay/items/items_state.c:10 | the number of active pool slots is the number of slot indices that are active |
| ItemState.ActiveCountExtremes | source/gameplay/items/items_state.c:10 | the count equals the pool size exactly when every slot is active, and is 0 exactly when none is |
| ItemState.FillingAFreeSlotCountsOne | source/gameplay/items/items_state.c:10 | putting an active item into an inactive slot adds exactly one to the count |
| ItemState.ItemPool.constructor | source/gameplay/items/items_state.c:10-13 | the pool and the box table start zeroed, with no boxes in use and every effect zero |
| ItemState.ItemPool.ClearActiveItems | source/gameplay/items/items_state.c:81-85 | every slot becomes inactive with its other fields kept, so no slot is active |
| ItemState.ItemPool.InitItemBoxSpawns | source/gameplay/items/items_state.c:58-79 | the first slots hold the map's box layout, the rest are unchanged, and the count is the layout's length |
| ItemState.ItemPool.Init | source/gameplay/items/items_state.c:31-39 | every pool slot inactive, the map's boxes laid out, every effect zero |
| ItemState.ItemPool.Reset | source/gameplay/items/items_state.c:41-52 | every pool slot inactive; the boxes in use become active with no respawn pending, positions and count kept; the other box slots unchanged; every effect zero |
| ItemsDebug.GetBoxSpawns | source/gameplay/items/items_debug.c:8-11 | returns the box table itself and the number of boxes in use, which is within the table size |
| ItemsDebug.GetActiveItems | source/gameplay/items/items_debug.c:13-21 | returns the pool itself and the number of its active slots, which is the number of active slot indices and at most the pool size |
| ItemSpawning.Broadcast | source/gameplay/items/items_spawning.c:32-35 | the placement is sent, unchanged, exactly when sending is asked for and the race is multiplayer |
| ItemSpawning.FreeSlot | source/gameplay/items/items_spawning.c:152-159 | the lowest inactive slot (every earlier slot is active), or -1 exactly when every slot is active |
| ItemSpawning.FullPoolHasNoFreeSlot | source/gameplay/items/items_spawning.c:152-159 | no slot is free exactly when the active count is the pool size |
| ItemSpawning.ResolvedShooter | source/gameplay/items/items_spawning.c:51-54 | the stored shooter is -1 or one of the race's cars, and a valid shooter index is kept |
| ItemSpawning.ProjectileItem | source/gameplay/items/items_spawning.c:42-93 | the slot holds an active projectile with the given kind, position, speed, heading, target and full lifetime; red shells and missiles have a valid shooter, lap-based immunity and start following the waypoints from the nearest one; green shells have no shooter, immunity or path; missiles get the missile hitbox, shells the shell hitbox |
| ItemSpawning.HazardItem | source/gameplay/items/items_spawning.c:117-141 | the slot holds an active item at rest where it was dropped; bombs, bananas and oil get their own lifetime and hitbox, any other kind keeps the slot's old ones; no other field changes |
| ItemSpawning.Spawn | source/gameplay/items/items_spawning.c:37-40 | a full pool is left unchanged; otherwise the lowest free slot takes the item, the active count goes up by one, and every other slot is unchanged |
| ItemSpawning.FindInactiveItemSlot | source/gameplay/items/items_spawning.c:152-159 | the loop returns the lowest inactive slot, or -1 when there is none |
| ItemSpawning.FireProjectileInternal | source/gameplay/items/items_spawning.c:27-94 | the placement is broadcast in multiplayer when asked, whether or not a slot is free, and the pool is the old one with the projectile spawned into its lowest free slot |
| ItemSpawning.FireProjectile | source/gameplay/items/items_spawning.c:96-101 | a local shot: broadcast in multiplayer, the local player as shooter, spawned into the lowest free slot |
| ItemSpawning.PlaceHazardInternal | source/gameplay/items/items_spawning.c:103-142 | the drop is broadcast at speed 0 and heading 0 in multiplayer when asked, and the pool is the old one with the hazard spawned into its lowest free slot |
| ItemSpawning.PlaceHazard | source/gameplay/items/items_spawning.c:144-146 | a local drop: broadcast in multiplayer, spawned into the lowest free slot |
| ItemUpdate.ShooterPosition | source/gameplay/items/items_update.c:85-87 | the shooter's position is known exactly when the shooter index names one of the race's cars |
| ItemUpdate.ImmunityTickCases | source/gameplay/items/items_update.c:77-115 | a positive timer drops by one and is cleared early 50 pixels from the shooter; the lap timer -1 is cleared, and the lap recorded, exactly when more than 100 waypoints were visited and the item is back near its start; any other timer stays; nothing else changes |
| ItemUpdate.ItemQuadrant | source/gameplay/items/items_update.c:526-534 | an item's quadrant is one of the nine of the 3 x 3 grid |
| ItemUpdate.UpdateProjectile | source/gameplay/items/items_update.c:159-176 | the item moves one step along its heading at its speed and is despawned exactly when its new position overlaps a wall of its quadrant |
| ItemUpdate.ShortestTurn | source/gameplay/items/items_update.c:257-259 | the turn between two headings lies in (-256, 256] and is congruent to their difference modulo a full turn |
| ItemUpdate.ClampTurn | source/gameplay/items/items_update.c:261-264 | a turn is limited to HOMING_TURN_RATE either way and kept when within it |
| ItemUpdate.ShortestTurnIsUnique | source/gameplay/items/items_update.c:257-259 | only one turn in (-256, 256] links two headings |
| ItemUpdate.TurnTowardIsClampedShortestTurn | source/gameplay/items/items_update.c:253-266 | the new heading is in [0, 512), turns the short way toward the target by at most HOMING_TURN_RATE, and lands on the target when it is within that rate |
| ItemUpdate.FirstLockable | source/gameplay/items/items_update.c:191-209 | the answer is the first car from the start index that may be locked onto (not the shooter in multiplayer, not an immune shooter in single player, within 100 pixels), or -1 when there is none |
| ItemUpdate.HomingTargetStagesKeepTheRest | source/gameplay/items/items_update.c:182-233 | retargeting and the leash change only the target and the path flag |
| ItemUpdate.HomingAimSteps | source/gameplay/items/items_update.c:235-266 | the aim changes only the heading, by at most HOMING_TURN_RATE, and the waypoint, by at most one step with the visit count |
| ItemUpdate.HomingOnlySteers | source/gameplay/items/items_update.c:178-267 | homing keeps position, kind, speed, lifetime, shooter and immunity; the heading turns by at most HOMING_TURN_RATE and the waypoint advances by at most one |
| ItemUpdate.HomingTargetRules | source/gameplay/items/items_update.c:182-233 | in multiplayer the shooter is never kept as a target, and a car the item stays locked onto is within the 150-pixel leash and chased directly |
| ItemUpdate.HomingLocksOntoFirstCarInRange | source/gameplay/items/items_update.c:188-209 | an unlocked item with a lockable car in range locks onto the first one, leaves the path and turns toward it |
| ItemUpdate.LockOnScan | source/gameplay/items/items_update.c:188-210 | the scan loop locks onto the first lockable car and leaves the path, or changes nothing when there is none |
| ItemUpdate.CheckLeash | source/gameplay/items/items_update.c:212-233 | a valid target is dropped when it is the shooter in multiplayer or beyond the leash; otherwise it is kept and its position becomes the point aimed at |
| ItemUpdate.TurnStep | source/gameplay/items/items_update.c:253-266 | the smooth turn computes the clamped shortest turn toward the target heading |
| ItemUpdate.Steer | source/gameplay/items/items_update.c:235-266 | on the path the item advances past a reached waypoint and turns toward the current one; otherwise it turns toward the point aimed at |
| ItemUpdate.AimDependsOnPoint | source/gameplay/items/items_update.c:212-266 | off the path the aim depends only on the point aimed at |
| ItemUpdate.UpdateHoming | source/gameplay/items/items_update.c:178-267 | the item after the call is the homing step: retarget, leash, then aim |
| ItemUpdate.ItemTickCases | source/gameplay/items/items_update.c:62-127 | inactive slots stay as they are and no slot is reactivated; a positive lifetime drops by one per frame and the item ends at 0; kind, speed, hitbox and shooter are kept; hazards never move and end only by lifetime |
| ItemUpdate.InactiveStaysInactive | source/gameplay/items/items_update.c:62-64 | an inactive slot stays unchanged over any number of frames |
| ItemUpdate.ItemEndsWithinLifetime | source/gameplay/items/items_update.c:68-75 | an item with a positive lifetime L is gone after at most L frames, whatever the cars do |
| ItemUpdate.HazardLastsItsLifetime | source/gameplay/items/items_update.c:68-75 | a banana, oil slick or bomb with a positive lifetime L stays active for exactly L - 1 more frames |
| ItemUpdate.ActiveBoxStays | source/gameplay/items/items_update.c:130-137 | an active box is untouched by the respawn countdown |
| ItemUpdate.BoxCountdown | source/gameplay/items/items_update.c:130-137 | an inactive box with timer t above 0 is active again exactly from frame t on, in the same place |
| ItemUpdate.BoxRespawnsAfterRespawnTicks | source/gameplay/items/items_update.c:146-153 | a taken box reappears exactly ITEM_BOX_RESPAWN_TICKS frames later, in place |
| ItemUpdate.DeactivatedAt | source/gameplay/items/items_update.c:146-153 | an index outside the boxes in use changes nothing; otherwise that box becomes inactive with the full respawn timer, and no other box changes |
| ItemUpdate.DeactivateBox | source/gameplay/items/items_update.c:146-153 | the box table after the call is the table with that box taken, or unchanged for an index out of range |
| ItemUpdate.ReceivedFillsFreeSlots | source/gameplay/items/items_update.c:43-53 | each received placement takes a free slot while one is left, and the rest are dropped |
| ItemUpdate.PickedUpBoxes | source/gameplay/items/items_update.c:55-58 | received pickups take exactly the boxes in use that they name and leave every other box alone |
| ItemUpdate.ReceivePlacements | source/gameplay/items/items_update.c:43-53 | each received placement is fired when moving or placed when still, in arrival order, and none is sent back |
| ItemUpdate.ReceiveBoxPickups | source/gameplay/items/items_update.c:55-58 | each received pickup deactivates its box, in arrival order |
| ItemUpdate.UpdateImmunity | source/gameplay/items/items_update.c:77-115 | the item after the call is the immunity tick for the shooter's position |
| ItemUpdate.UpdateActiveItem | source/gameplay/items/items_update.c:66-126 | one pass of the slot loop on an active slot is one item tick: lifetime, immunity, projectile motion and homing |
| ItemUpdate.UpdateTrackItems | source/gameplay/items/items_update.c:62-127 | every pool slot takes exactly one item tick |
| ItemUpdate.UpdateBoxRespawns | source/gameplay/items/items_update.c:130-137 | every box in use takes one countdown step, and the other box slots are unchanged |
| ItemUpdate.Update | source/gameplay/items/items_update.c:38-138 | in multiplayer the received placements and pickups are applied first; then every slot takes one item tick and every box in use one countdown step |
| ItemInventory.RankIndex | source/gameplay/items/items_inventory.c:115-120 | ranks 1 to 8 use rows 0 to 7, ranks below 1 use row 0 and ranks past 8 use row 7 |
| ItemInventory.FirstAbove | source/gameplay/items/items_inventory.c:136-166 | the position found is the first whose cumulative weight exceeds the roll, or the last one |
| ItemInventory.DrawIsByCumulativeWeight | source/gameplay/items/items_inventory.c:136-166 | for a roll in [0, total) the cascade returns the item whose cumulative weight interval holds the roll, so the item has a positive weight and is never "none" or "box" |
| ItemInventory.GetRandomItem | source/gameplay/items/items_inventory.c:114-167 | the item drawn is always one of the eight items a box can give |
| ItemInventory.GetRandomItemHasWeight | source/gameplay/items/items_inventory.c:114-167 | with a positive row total the roll falls in [0, total) and the item drawn is the one whose interval holds it, with positive weight in the row for the player's rank and mode |
| ItemInventory.ConeOffset | source/gameplay/items/items_inventory.c:224-228 | the folded angle between a bearing and the heading lies in [0, 256] |
| ItemInventory.CandidateIsAhead | source/gameplay/items/items_inventory.c:216-221 | every target candidate is strictly ahead: its score is positive |
| ItemInventory.CarInDirectionIsFurthestAhead | source/gameplay/items/items_inventory.c:185-244 | no target exactly when there is at most one car or no car is ahead within the cone; otherwise the target is such a car, never the player, with the largest score, and the first of equal scores |
| ItemInventory.FoldAngleDiff | source/gameplay/items/items_inventory.c:224-228 | the folded angle computed is the cone offset |
| ItemInventory.ScoreCar | source/gameplay/items/items_inventory.c:199-233 | the loop body accepts a car exactly when it is a candidate (not the player, not on the spot, ahead, within the cone) and then scores it by its distance ahead |
| ItemInventory.ScanCars | source/gameplay/items/items_inventory.c:195-241 | the loop ends holding the scan's best target and score |
| ItemInventory.FindCarInDirection | source/gameplay/items/items_inventory.c:185-244 | the target is none for at most one car, otherwise the scan's best |
| ItemInventory.FindCarAhead | source/gameplay/items/items_inventory.c:173-181 | the search runs from the player's own position and heading; the rank argument plays no part |
| ItemInventory.BehindIsOpposite | source/gameplay/items/items_inventory.c:24-25 | the heading half a turn round points exactly opposite the facing vector |
| ItemInventory.UseOfPlacesItems | source/gameplay/items/items_inventory.c:14-112 | an empty slot does nothing; bananas, bombs and oil are dropped behind the car against its facing vector; shells leave from the spawn offset along the firing heading, backward exactly opposite the facing vector; a missile keeps the car's heading and takes the target given |
| ItemInventory.UsePlayerItem | source/gameplay/items/items_inventory.c:14-112 | the slot is emptied; a hazard is placed or a projectile fired as the use says, and broadcast in multiplayer; a mushroom confuses, a boost boosts; any other item changes nothing but the slot |
| ItemInventory.ScanIsFirstBest | source/gameplay/items/items_inventory.c:195-241 | the scan holds -1 when no candidate scores above -1, otherwise a candidate with the largest score that no earlier candidate ties |
| ItemCollision.ItemHitRange | source/gameplay/items/items_update.c:391-395 | shells, bananas, bombs and missiles reach 24 pixels and oil 32; the test is symmetric, always hits on the same spot, and a wider hitbox reaches at least as far |
| ItemCollision.BoxReachIsShellReach | source/gameplay/items/items_update.c:385-389 | a car picks up a box exactly where a shell at the box would hit it |
| ItemCollision.NearScreenIsRelative | source/gameplay/items/items_update.c:513-524 | every item on screen is tested, the test moves with the camera, and an item more than the 64-pixel buffer past an edge is not tested |
| ItemCollision.ShellHitSpinsAnEighth | source/gameplay/items/items_update.c:397-403 | a shell stops the car and turns it exactly an eighth of a turn, the side chosen by the roll's parity; nothing else changes |
| ItemCollision.BananaHitTurnsAround | source/gameplay/items/items_update.c:405-409 | a banana points the car exactly the opposite way, keeps a third of its speed rounded toward zero with its sign, and a second banana restores the heading |
| ItemCollision.KnockbackAxis | source/gameplay/items/items_update.c:374-380 | on each axis the knockback is zero or has the sign of the offset from the bomb |
| ItemCollision.ExplosionPushesAway | source/gameplay/items/items_update.c:356-383 | a car outside the 50-pixel blast is untouched; one inside is stopped and on each axis moves away from the bomb or not at all, everything else kept |
| ItemCollision.FirstHit | source/gameplay/items/items_update.c:269-295 | the car found is the first one open to the item and within reach, or none when no car is |
| ItemCollision.ProjectileHitsAtMostOne | source/gameplay/items/items_update.c:269-308 | a projectile affects at most one car, open to it and within reach, and ends exactly when such a car exists; in multiplayer the shooter and disconnected cars are never hit; no car moves |
| ItemCollision.HazardCheckCases | source/gameplay/items/items_update.c:310-354 | a banana hits only the first present car in reach and ends exactly when there is one; a slick never ends and only slows cars in reach; a bomb with time left explodes only on contact, then ends |
| ItemCollision.BombTimerEndsTheBomb | source/gameplay/items/items_update.c:66-75 | an active bomb whose timer runs out is ended by the update pass, so the collision pass never meets an active bomb with no time left |
| ItemCollision.ApplyShellHitEffect | source/gameplay/items/items_update.c:397-403 | the car's new state is the shell hit of its old state |
| ItemCollision.ApplyBananaHitEffect | source/gameplay/items/items_update.c:405-409 | the car's new state is the banana hit of its old state |
| ItemCollision.ApplyOilHitEffect | source/gameplay/items/items_update.c:411-422 | every car hit has its speed halved; only for the local player's car does the oil slow start, at the car's position |
| ItemCollision.ExplodeCar | source/gameplay/items/items_update.c:362-382 | one car's new state is its explosion outcome |
| ItemCollision.ExplodeBomb | source/gameplay/items/items_update.c:356-383 | every present car takes the blast and every other car is unchanged |
| ItemCollision.CheckProjectileCollision | source/gameplay/items/items_update.c:269-308 | the slot and the cars become the projectile check of their old values, every other slot unchanged |
| ItemCollision.OilContactWalk | source/gameplay/items/items_update.c:315-347 | every present car within the slick's reach is slowed and the player's oil slow starts if its car is reached |
| ItemCollision.FirstContactWalk | source/gameplay/items/items_update.c:315-347 | the first present car in reach sets off a banana or bomb, which then ends |
| ItemCollision.HazardContactWalk | source/gameplay/items/items_update.c:315-347 | the slot, the cars and the player's effects become the contact pass of their old values |
| ItemCollision.CheckHazardCollision | source/gameplay/items/items_update.c:310-354 | the contact pass, then a bomb with no time left explodes and ends |
| ItemCollision.DetonateIfDue | source/gameplay/items/items_update.c:348-353 | a bomb whose timer has run out blasts the cars with Blast at its position and leaves the pool; any other item leaves the pool and the cars as they were |
| ItemCollision.ProjectilePassOnlyEnds | source/gameplay/items/items_update.c:477-493 | the projectile pass only ends active projectiles, leaves every other slot as it was and moves no car |
| ItemCollision.CheckAllProjectileCollisions | source/gameplay/items/items_update.c:477-493 | the pool and the cars become the projectile pass over all slots in order |
| ItemCollision.HazardPassOnlyEnds | source/gameplay/items/items_update.c:495-511 | the hazard pass only ends active bananas and bombs: slicks stay and every other slot is left as it was |
| ItemCollision.CheckAllHazardCollisions | source/gameplay/items/items_update.c:495-511 | the pool, cars and player effects become the hazard pass over all slots in order |
| ItemCollision.BoxPicker | source/gameplay/items/items_update.c:450-475 | the car found is the first present car that reaches the box, or none when none does |
| ItemCollision.Pickup | source/gameplay/items/items_update.c:424-448 | the box is taken; only the picker's item may change, and only into a real item; no car moves |
| ItemCollision.BoxStep | source/gameplay/items/items_update.c:450-475 | one box keeps the draw possible and moves no car |
| ItemCollision.BoxPassTakesReachedBoxes | source/gameplay/items/items_update.c:450-475 | the pass takes exactly the active boxes in use that some present car reaches, and no other box |
| ItemCollision.BoxPassRewardsOnlyThePlayer | source/gameplay/items/items_update.c:424-448 | only the local player's car changes, and only by drawing a real item into an empty hand |
| ItemCollision.BoxPassReportsOnlyPlayerPickups | source/gameplay/items/items_update.c:438-446 | every index sent is a box the local player took, in increasing order, and none are sent in single player |
| ItemCollision.BoxPassReportsEveryPlayerPickup | source/gameplay/items/items_update.c:438-446 | in multiplayer every box the local player takes is sent |
| ItemCollision.HandleItemBoxPickup | source/gameplay/items/items_update.c:424-448 | the boxes, cars and the message sent are the pickup of their old values |
| ItemCollision.OfferBox | source/gameplay/items/items_update.c:463-473 | one active box is offered to the cars in order, as the box step says |
| ItemCollision.CheckItemBoxCollisions | source/gameplay/items/items_update.c:450-475 | the boxes, cars and messages sent are the box pass over the boxes in use |
| ItemCollision.CollisionsOnlyEnd | source/gameplay/items/items_update.c:140-144 | a collision frame places and revives nothing: each slot is kept or an active non-oil item ends, each box is kept or an active box in use is taken |
| ItemCollision.CheckCollisions | source/gameplay/items/items_update.c:140-144 | boxes, then projectiles, then hazards: the new pool, cars, effects and messages are the collision frame of the old ones |

## Left out

- Sockets, Wi-Fi and clocks. Python socket I/O and the wall-clock loops are left out: `run`, the lobby
  and race loops, `time.sleep`, `select`/`termios`, broadcast-address lookup and `main`. Received
  datagrams, send outcomes and clock readings are parameters.
- `Multiplayer_Init`: the console output, the Wi-Fi calls and the wait for a key press are left out.
  Their outcomes are parameters. `sendData`/`receiveData` become an output log and an input sequence.
- ARQ and acknowledgements are only described in the network header's comments and have no code, so
  they are not modelled.
- `update_car_physics` in the simulated player uses float trigonometry. Its displacement is a parameter.
  Python floats are `real`s, with `int()` as truncation toward zero.
- Integer width. Q16.8 arithmetic is on unbounded integers, so the int32 overflow of the C code is not
  modelled. The unsigned millisecond clock and its differences do wrap modulo 2^32.
- `rand()` is a parameter everywhere it is called: item draws, shell spin and bot personalities.
- Constants whose definitions are not in the modelled sources are parameters:
  - the item probability tables;
  - the banana lifetime;
  - the banana and bomb drop offsets;
  - the Scorching Sands boundary tables of the racing line and the track geometry.
- Video memory. The background map, tile and palette memory that terrain detection reads is a parameter
  (`Terrain.Vram`).
- Graphics and sound:
  - sprites, OAM, DMA, VRAM setup and sound effects;
  - the rendering in `Gameplay_OnVBlank`, `displayFinalTime`, the countdown display and the item display;
  - `Items_SpawnBoxes`, whose body is empty.
- The lap counting in `Gameplay_OnVBlank` (source/gameplay/gameplay.c:549-567) is not modelled as one
  operation. On a counted finish-line crossing it advances `currentLap` and zeroes the lap chronometer,
  or, on the last lap, calls `Race_MarkAsCompleted` with the total time and zeroes `finishDisplayCounter`.
  Its parts are modelled: `GameplayLogic.RaceController.CheckFinishLineCross`,
  `GameplayLogic.RaceController.MarkAsCompleted` and the chronometers of `GameplayScreen`.
- `Storage_Init` and `StoragePB_Init` are left out. Besides setting up the FAT file system and the
  directories, `Storage_Init` writes the default settings to default_settings.txt and settings.txt when
  either is missing (the content written is `Storage.DefaultsWritten`), and `StoragePB_Init` creates an
  empty best-times file when there is none. These writes are not modelled. A file is its text,
  with `None` standing for a file that cannot be opened.
- `Race_Tick`: only the finish delay, the player's car update, wall push, clamp, checkpoints and
  lockout are modelled. Left out:
  - player input and terrain effects;
  - the item update and collision calls, which are modelled on their own in `ItemUpdate` and
    `ItemCollision`;
  - network synchronisation.
- `Race_Init` and `Race_Reset` are not modelled as whole operations. Besides the parts modelled in
  `GameplayLogic`, `Race_Init` ends by calling `Items_Init` with the map and `Race_Reset` calls
  `Items_Reset` (source/gameplay/gameplay_logic.c:241, 252). Those two are modelled on their own as
  `ItemState.ItemPool.Init` and `ItemState.ItemPool.Reset`.
- Also left out of the race controller: `Race_CountdownTick` (network sync only), `handlePlayerInput`,
  `applyTerrainEffects`, the pause interrupt handler and the `Race_Get*` accessors.
- Bots: `BotAI_Init`, `BotAI_Update` and the steering and avoidance functions not listed in the table
  are left out. So is the random personality generation.
- Accessors that only return a module static are the class fields themselves:
  - `RacingLine_Get` is the `RacingLineState.Line` object;
  - `Items_GetPlayerEffects` is `ItemState.ItemPool.playerEffects`;
  - the `Gameplay_GetRace*` getters are the `RaceScreen` fields.
- `ItemNav_IsWaypointReached` is the plain predicate `ItemNavigation.IsWaypointReached`, distance at
  most 25 pixels. It has no separate contract.
- The C car functions return early on a NULL car. Dafny references are never null, so that path has no
  counterpart.
- `BotAI.Bots.CalculateSteeringTarget` updates a copy of the bot's waypoint indices and stores it back at
  the end, where the C writes through a pointer. No other code runs in between.
- `ItemInventory.GetRandomItem` requires the row total for the player's rank to be non-zero. The C computes
  `rand() % total` without a guard, which is undefined for a zero total.
- `ItemCollision.CheckCollisions` and `ItemCollision.CheckItemBoxCollisions` require the same non-zero
  total (`ItemCollision.CanDraw`) whenever the local player's hand is empty, for the same reason.
- `ItemCollision.CheckHazardCollision` and `ItemCollision.HazardContactWalk` require the hazard to be
  active, as it always is when the collision pass calls them. For an inactive oil slick the C's early
  `break` would differ.
- `ItemUpdate.UpdateHoming`: when the item is neither on its path nor locked on, the C turns toward an
  uninitialised local. The model takes that point as the parameter `stalePoint` and claims nothing about
  it.
- StoragePB.ScanName: the C reads the name into `char mapStr[32]`, so a hand-edited line whose name has
  32 characters or more overflows it. The model reads names of any length; such files are outside it.
- FixedMath.Normalize: the model does not promise the unit length that `Vec2_Normalize`'s declaration
  announces, because Q16.8 rounding in `Vec2_Len` and `FixedDiv` breaks it for short inputs
  (`FixedMath.NormalizeShortVectorOvershoots`). What holds for every input is
  `FixedMath.NormalizeKeepsDirection`; from a length of 4.0 up, `FixedMath.NormalizeNearlyUnit`.

## Findings

| source | as written | input that shows it | evidently intended | confidence | as-written member | corrected member |
|---|---|---|---|---|---|---|
| source/math/fixedmath.c:464-474 | `Vec2_Project` guards only against the zero vector, then divides by the Q16.8 squared length | onto = (1, 0): not zero, but its squared length rounds to 0, so the division is by zero | guard the divisor, as `Vec2_Normalize` does, and return the zero vector | not executed | FixedMath.ProjectAsWrittenDividesByZero | FixedMath.Project |
| source/BotAI.c:981-997 | `isOnStraightaway` compares corner angles by plain absolute difference | headings 511, 1, 3 (two 2-unit steps across heading 0) are called a corner, while 1, 3, 5 are straight | compare the heading change folded the short way round the 512-unit circle | not executed | BotAI.StraightawayAsWrittenMissesWrap | BotAI.StraightawayIgnoresHeading |
