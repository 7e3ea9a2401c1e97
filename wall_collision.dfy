/**
 * Axis-aligned wall segments per map quadrant, the circle-against-segment
 * test and the bounce normal (source/gameplay/wall_collision.c).
 */
module WallCollision {
  import opened FixedMath

  datatype WallType = Horizontal | Vertical

  /** Horizontal: fixedCoord is y and the range is in x; vertical the other way round. */
  datatype WallSegment = WallSegment(kind: WallType, fixedCoord: int, minRange: int, maxRange: int)

  const QUAD_TL: int := 0
  const QUAD_BR: int := 8
  const NO_WALL_DIST: int := 9999

  function H(y: int, x0: int, x1: int): WallSegment { WallSegment(Horizontal, y, x0, x1) }
  function V(x: int, y0: int, y1: int): WallSegment { WallSegment(Vertical, x, y0, y1) }

  /** The segment tables, indexed by QuadrantID. */
  function QuadrantWalls(quad: int): (ws: seq<WallSegment>)
    requires QUAD_TL <= quad <= QUAD_BR
    ensures 5 <= |ws| <= 11
  {
    if quad == 0 then [V(8, 0, 512), H(8, 0, 512), V(167, 160, 512), H(160, 167, 273), V(273, 162, 375), H(375, 273, 512)]
    else if quad == 1 then [H(8, 256, 734), V(734, 8, 160), H(160, 734, 768), H(160, 256, 272), V(272, 160, 376),
                            H(376, 272, 688), H(416, 688, 768), V(688, 376, 416)]
    else if quad == 2 then [H(8, 512, 735), V(735, 8, 160), H(160, 735, 1016), V(1016, 160, 512), H(376, 512, 687),
                            V(687, 376, 416), H(416, 687, 815), V(815, 416, 512)]
    else if quad == 3 then [V(8, 256, 768), V(168, 256, 552), H(552, 136, 168), V(136, 552, 664), H(664, 136, 176),
                            V(176, 594, 664), H(594, 176, 271), V(271, 496, 594), H(496, 271, 512)]
    else if quad == 4 then [V(735, 496, 768), H(496, 272, 735), V(272, 496, 594), H(594, 256, 272), V(272, 256, 376),
                            H(376, 272, 688), V(688, 376, 416), H(416, 688, 768)]
    else if quad == 5 then [V(815, 416, 768), V(1016, 256, 768), H(416, 688, 815), V(688, 376, 416), H(376, 512, 688),
                            H(495, 512, 735), V(735, 495, 768)]
    else if quad == 6 then [H(1016, 480, 512), H(872, 0, 479), V(479, 872, 1016), V(8, 512, 872), H(592, 176, 271),
                            V(176, 592, 663), H(663, 136, 176), V(136, 552, 663), H(552, 136, 168), V(168, 512, 552),
                            V(271, 512, 592)]
    else if quad == 7 then [V(736, 512, 815), H(815, 736, 768), H(1016, 479, 768), V(479, 872, 1016), H(872, 256, 479),
                            H(592, 256, 272), V(272, 512, 592)]
    else [H(1008, 512, 1008), V(1008, 512, 1008), H(815, 736, 815), V(736, 512, 815), V(815, 512, 815)]
  }

  /**
   * segmentCollision: the car's circle (as a square of half-width radius)
   * is within radius of the wall's line and overlaps its range.
   */
  function SegmentCollision(w: WallSegment, carX: int, carY: int, radius: int): (hit: bool)
    ensures w.kind == Horizontal ==>
      (hit <==> Abs(carY - w.fixedCoord) <= radius && carX + radius >= w.minRange && carX - radius <= w.maxRange)
    ensures w.kind == Vertical ==>
      (hit <==> Abs(carX - w.fixedCoord) <= radius && carY + radius >= w.minRange && carY - radius <= w.maxRange)
  {
    if w.kind == Horizontal then
      var distY := if carY > w.fixedCoord then carY - w.fixedCoord else w.fixedCoord - carY;
      if distY > radius then false
      else carX + radius >= w.minRange && carX - radius <= w.maxRange
    else
      var distX := if carX > w.fixedCoord then carX - w.fixedCoord else w.fixedCoord - carX;
      if distX > radius then false
      else carY + radius >= w.minRange && carY - radius <= w.maxRange
  }

  /** What Wall_CheckCollision computes. */
  predicate Colliding(carX: int, carY: int, carRadius: int, quad: int)
  {
    QUAD_TL <= quad <= QUAD_BR &&
    exists i | 0 <= i < |QuadrantWalls(quad)| :: SegmentCollision(QuadrantWalls(quad)[i], carX, carY, carRadius)
  }

  /** Wall_CheckCollision: true iff some segment of a valid quadrant collides. */
  method CheckCollision(carX: int, carY: int, carRadius: int, quad: int) returns (hit: bool)
    ensures hit == Colliding(carX, carY, carRadius, quad)
    ensures !(QUAD_TL <= quad <= QUAD_BR) ==> !hit
  {
    if quad < QUAD_TL || quad > QUAD_BR {
      return false;
    }
    var walls := QuadrantWalls(quad);
    var i := 0;
    while i < |walls|
      invariant 0 <= i <= |walls|
      invariant forall k | 0 <= k < i :: !SegmentCollision(walls[k], carX, carY, carRadius)
    {
      if SegmentCollision(walls[i], carX, carY, carRadius) {
        return true;
      }
      i := i + 1;
    }
    return false;
  }

  /** A wall that can supply the normal: its range contains the car's coordinate (radius ignored). */
  datatype Candidate = Candidate(dist: int, nx: int, ny: int)

  function CandidateOf(w: WallSegment, carX: int, carY: int): (c: Option<Candidate>)
    ensures c.Some? ==> c.value.dist >= 0
    ensures c.Some? ==> (c.value.nx == 0 && (c.value.ny == 1 || c.value.ny == -1)) ||
                        (c.value.ny == 0 && (c.value.nx == 1 || c.value.nx == -1))
  {
    if w.kind == Horizontal then
      if w.minRange <= carX <= w.maxRange then
        Some(Candidate(Abs(carY - w.fixedCoord), 0, if carY > w.fixedCoord then 1 else -1))
      else None
    else
      if w.minRange <= carY <= w.maxRange then
        Some(Candidate(Abs(carX - w.fixedCoord), if carX > w.fixedCoord then 1 else -1, 0))
      else None
  }

  /** The running minimum of the normal loop; best is the winning index, or -1. */
  datatype Scan = Scan(minDist: int, nx: int, ny: int, best: int)

  /**
   * The normal loop over ws as a fold. The result comes from the nearest
   * candidate wall, the earliest one on ties; with no candidate nearer than
   * 9999 it is (0, 0). Components are in {-1, 0, 1} with at most one non-zero.
   */
  function NormalScan(ws: seq<WallSegment>, carX: int, carY: int): (s: Scan)
    ensures -1 <= s.best < |ws|
    ensures s.best == -1 ==> s == Scan(NO_WALL_DIST, 0, 0, -1)
    ensures s.best == -1 ==> forall j | 0 <= j < |ws| && CandidateOf(ws[j], carX, carY).Some? ::
      CandidateOf(ws[j], carX, carY).value.dist >= NO_WALL_DIST
    ensures s.best >= 0 ==> CandidateOf(ws[s.best], carX, carY) == Some(Candidate(s.minDist, s.nx, s.ny))
    ensures s.best >= 0 ==> forall j | 0 <= j < |ws| && CandidateOf(ws[j], carX, carY).Some? ::
      CandidateOf(ws[j], carX, carY).value.dist >= s.minDist
    ensures s.best >= 0 ==> forall j | 0 <= j < s.best && CandidateOf(ws[j], carX, carY).Some? ::
      CandidateOf(ws[j], carX, carY).value.dist > s.minDist
    ensures (s.nx == 0 && -1 <= s.ny <= 1) || (s.ny == 0 && -1 <= s.nx <= 1)
    decreases |ws|
  {
    if ws == [] then Scan(NO_WALL_DIST, 0, 0, -1)
    else
      var prev := NormalScan(ws[..|ws| - 1], carX, carY);
      var c := CandidateOf(ws[|ws| - 1], carX, carY);
      assert forall j | 0 <= j < |ws| - 1 :: ws[j] == ws[..|ws| - 1][j];
      if c.Some? && c.value.dist < prev.minDist then Scan(c.value.dist, c.value.nx, c.value.ny, |ws| - 1)
      else prev
  }

  /** One more wall: it wins only when it is a candidate strictly nearer than the best so far. */
  lemma NormalScanStep(ws: seq<WallSegment>, i: int, carX: int, carY: int)
    requires 0 <= i < |ws|
    ensures var prev := NormalScan(ws[..i], carX, carY);
      var c := CandidateOf(ws[i], carX, carY);
      NormalScan(ws[..i + 1], carX, carY) ==
        if c.Some? && c.value.dist < prev.minDist then Scan(c.value.dist, c.value.nx, c.value.ny, i) else prev
  {
    assert ws[..i + 1][..i] == ws[..i];
  }

  /** What Wall_GetCollisionNormal writes. */
  function NormalOf(carX: int, carY: int, quad: int): (n: (int, int))
  {
    if quad < QUAD_TL || quad > QUAD_BR then (0, 0)
    else var s := NormalScan(QuadrantWalls(quad), carX, carY); (s.nx, s.ny)
  }

  /** Wall_GetCollisionNormal. */
  method GetCollisionNormal(carX: int, carY: int, quad: int) returns (nx: int, ny: int)
    ensures (nx, ny) == NormalOf(carX, carY, quad)
    ensures (nx == 0 && -1 <= ny <= 1) || (ny == 0 && -1 <= nx <= 1)
    ensures !(QUAD_TL <= quad <= QUAD_BR) ==> nx == 0 && ny == 0
  {
    if quad < QUAD_TL || quad > QUAD_BR {
      return 0, 0;
    }
    nx, ny := ScanForNormal(QuadrantWalls(quad), carX, carY);
  }

  /** The loop of Wall_GetCollisionNormal over one quadrant's segment table. */
  method ScanForNormal(walls: seq<WallSegment>, carX: int, carY: int) returns (nx: int, ny: int)
    ensures (nx, ny) == (NormalScan(walls, carX, carY).nx, NormalScan(walls, carX, carY).ny)
  {
    var minDist := NO_WALL_DIST;
    var bestNx, bestNy := 0, 0;
    ghost var best := -1;
    var i := 0;
    while i < |walls|
      invariant 0 <= i <= |walls|
      invariant Scan(minDist, bestNx, bestNy, best) == NormalScan(walls[..i], carX, carY)
    {
      NormalScanStep(walls, i, carX, carY);
      var wall := walls[i];
      if wall.kind == Horizontal {
        var dist := if carY > wall.fixedCoord then carY - wall.fixedCoord else wall.fixedCoord - carY;
        if dist < minDist && carX >= wall.minRange && carX <= wall.maxRange {
          minDist := dist;
          bestNy := if carY > wall.fixedCoord then 1 else -1;
          bestNx := 0;
          best := i;
        }
      } else {
        var dist := if carX > wall.fixedCoord then carX - wall.fixedCoord else wall.fixedCoord - carX;
        if dist < minDist && carY >= wall.minRange && carY <= wall.maxRange {
          minDist := dist;
          bestNx := if carX > wall.fixedCoord then 1 else -1;
          bestNy := 0;
          best := i;
        }
      }
      i := i + 1;
    }
    assert walls[..|walls|] == walls;
    nx, ny := bestNx, bestNy;
  }

  /**
   * A car on the line of a horizontal wall gets the downward normal: the
   * comparison is strict, so carY == fixedCoord counts as "above".
   */
  lemma OnTheWallPointsDown(w: WallSegment, carX: int)
    requires w.kind == Horizontal && w.minRange <= carX <= w.maxRange
    ensures CandidateOf(w, carX, w.fixedCoord) == Some(Candidate(0, 0, -1))
  {
  }

  /**
   * In the bottom-right corner of the map a car overlapping the outer walls
   * collides, yet its coordinates lie outside every segment's range, so the
   * normal is (0, 0).
   */
  lemma CornerCollisionHasNoNormal()
    ensures Colliding(1010, 1010, 16, 8)
    ensures NormalOf(1010, 1010, 8) == (0, 0)
  {
    var ws := QuadrantWalls(8);
    assert SegmentCollision(ws[0], 1010, 1010, 16);
    assert forall j | 0 <= j < |ws| :: CandidateOf(ws[j], 1010, 1010).None?;
  }
}
