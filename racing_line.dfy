/**
 * The racing line (racing_line.c): a closed line of at most 64 points laid
 * half-way between the inner and outer track boundaries, each point carrying
 * its boundaries, the local width, how sharp the corner is there, a
 * recommended speed and the direction to the next point. This module holds
 * the line as functions of the boundary tables; RacingLineState holds the
 * module's statics.
 */
module RacingLine {
  import opened FixedMath
  import opened GameTypes
  import opened MinScan

  const MAX_RACING_LINE_POINTS: int := 64

  /** IntToFixed(50) / 100: half-way between the boundaries. */
  const APEX_BIAS: int := IntToFixed(50) / 100

  /** The "nothing found yet" squared distance of the nearest-point scan. */
  const FAR_AWAY: int := IntToFixed(999999)

  datatype RacingLinePoint = RacingLinePoint(
    position: Vec2, leftBound: Vec2, rightBound: Vec2, trackWidth: int,
    targetSpeed: int, tangentAngle512: int, cornerSharpness: int)

  /** A zero-initialised point. */
  const EMPTY_POINT: RacingLinePoint := RacingLinePoint(Zero(), Zero(), Zero(), 0, 0, 0, 0)

  // ---------------------------------------------------------------------
  // Point geometry
  // ---------------------------------------------------------------------

  /** interpolateBoundaries: inner plus the bias (Q8) times the inner-to-outer vector. */
  function Interpolate(inner: Vec2, outer: Vec2, apexBias: int): Vec2
  {
    Add(inner, Scale(Sub(outer, inner), apexBias))
  }

  /** Bias 0 is the inner edge, bias 1.0 the outer edge. */
  lemma InterpolateEnds(inner: Vec2, outer: Vec2)
    ensures Interpolate(inner, outer, 0) == inner
    ensures Interpolate(inner, outer, FIXED_ONE) == outer
  {
  }

  /**
   * With the line's bias each coordinate is the midpoint of the boundary
   * coordinates rounded down, so it lies between them.
   */
  lemma {:induction false} InterpolateMidpoint(inner: Vec2, outer: Vec2)
    ensures var p := Interpolate(inner, outer, APEX_BIAS);
      (2 * p.x == inner.x + outer.x || 2 * p.x == inner.x + outer.x - 1) &&
      (2 * p.y == inner.y + outer.y || 2 * p.y == inner.y + outer.y - 1) &&
      (inner.x <= p.x <= outer.x || outer.x <= p.x <= inner.x) &&
      (inner.y <= p.y <= outer.y || outer.y <= p.y <= inner.y)
  {
    HalfOf(outer.x - inner.x);
    HalfOf(outer.y - inner.y);
  }

  lemma {:induction false} HalfOf(d: int)
    ensures (d * APEX_BIAS) / FIXED_ONE == d / 2
    ensures d == 2 * (d / 2) || d == 2 * (d / 2) + 1
  {
    assert APEX_BIAS == 128;
    var q := d / 2;
    assert d == 2 * q + d % 2;
    assert d * 128 == 256 * q + 128 * (d % 2);
  }

  /**
   * calculateCurvature: the turn between the incoming and outgoing segments,
   * as the smaller angle between their directions scaled so that a quarter
   * turn is 100; 0 when either segment has no length.
   */
  function Curvature(prev: Vec2, current: Vec2, next: Vec2): (c: int)
    ensures 0 <= c <= 200
    ensures IsZero(Sub(current, prev)) || IsZero(Sub(next, current)) ==> c == 0
  {
    var v1 := Sub(current, prev);
    var v2 := Sub(next, current);
    if IsZero(v1) || IsZero(v2) then 0
    else
      var angleDiff := Abs(AngleOf(v2) - AngleOf(v1));
      var turn := if angleDiff > ANGLE_HALF then ANGLE_FULL - angleDiff else angleDiff;
      (turn * 100) / ANGLE_QUARTER
  }

  /**
   * Segments pointing the same way give 0; segments pointing opposite ways
   * (a half turn apart) give the maximum, 200, which is twice the 100 the
   * header documents as the top of the scale.
   */
  lemma CurvatureExtremes(prev: Vec2, current: Vec2, next: Vec2)
    requires !IsZero(Sub(current, prev)) && !IsZero(Sub(next, current))
    ensures AngleOf(Sub(current, prev)) == AngleOf(Sub(next, current)) ==> Curvature(prev, current, next) == 0
    ensures Abs(AngleOf(Sub(next, current)) - AngleOf(Sub(current, prev))) == ANGLE_HALF ==>
      Curvature(prev, current, next) == 200
  {
  }

  /** calculateTargetSpeed: full 50cc speed below 20, then 80%, 65% and 50% of it. */
  function TargetSpeed(cornerSharpness: int): (v: int)
    ensures 0 < v <= SPEED_50CC
  {
    if cornerSharpness < 20 then SPEED_50CC
    else if cornerSharpness < 50 then FixedMul(SPEED_50CC, IntToFixed(80) / 100)
    else if cornerSharpness < 75 then FixedMul(SPEED_50CC, IntToFixed(65) / 100)
    else FixedMul(SPEED_50CC, IntToFixed(50) / 100)
  }

  /** A sharper corner never gets a higher speed; the four speeds are 768, 612, 498 and 384. */
  lemma TargetSpeedNonIncreasing(a: int, b: int)
    requires a <= b
    ensures TargetSpeed(b) <= TargetSpeed(a)
    ensures TargetSpeed(a) in {768, 612, 498, 384}
  {
  }

  // ---------------------------------------------------------------------
  // Sampling the boundaries (generateRacingLinePoints)
  // ---------------------------------------------------------------------

  /** The shorter boundary is the reference. */
  function RefCount(inner: seq<Vec2>, outer: seq<Vec2>): (r: int)
    ensures 0 <= r <= |inner| && r <= |outer| && (r == |inner| || r == |outer|)
  {
    if |inner| < |outer| then |inner| else |outer|
  }

  /** Every step-th reference point is sampled, step at least 1. */
  function Step(refCount: int, targetCount: int): (s: int)
    requires refCount >= 0 && targetCount > 0
    ensures s >= 1
  {
    if refCount / targetCount < 1 then 1 else refCount / targetCount
  }

  /** How many points the first pass stores: ceil(refCount / step), at most 64. */
  function SampleCount(inner: seq<Vec2>, outer: seq<Vec2>, targetCount: int): (n: int)
    requires targetCount > 0
    ensures 0 <= n <= MAX_RACING_LINE_POINTS
    ensures n == 0 <==> RefCount(inner, outer) == 0
  {
    var r := RefCount(inner, outer);
    if r == 0 then 0
    else
      var c := (r - 1) / Step(r, targetCount) + 1;
      if c < MAX_RACING_LINE_POINTS then c else MAX_RACING_LINE_POINTS
  }

  lemma {:induction false} MulLe(a: int, b: int, s: int)
    requires a <= b && s >= 0
    ensures a * s <= b * s
  {
  }

  /**
   * The loop index k * step of the first pass: below the reference count for
   * each stored point, and the loop stops exactly at SampleCount.
   */
  lemma {:induction false} SampleBounds(inner: seq<Vec2>, outer: seq<Vec2>, targetCount: int, k: int)
    requires targetCount > 0 && 0 <= k <= MAX_RACING_LINE_POINTS
    ensures var r := RefCount(inner, outer);
      var s := Step(r, targetCount);
      var n := SampleCount(inner, outer, targetCount);
      (k < n ==> k * s < r) &&
      (k * s < r && k < MAX_RACING_LINE_POINTS && k <= n ==> k < n)
  {
    var r := RefCount(inner, outer);
    var s := Step(r, targetCount);
    if r > 0 {
      var c := (r - 1) / s;
      assert c * s <= r - 1 < (c + 1) * s;
      if k <= c {
        MulLe(k, c, s);
      } else {
        MulLe(c + 1, k, s);
      }
    }
  }

  /** (i * count) / refCount stays inside a boundary of count points. */
  lemma {:induction false} ScaledIndex(i: int, count: int, refCount: int)
    requires 0 <= i < refCount <= count
    ensures 0 <= (i * count) / refCount < count
  {
    var q := (i * count) / refCount;
    assert q * refCount <= i * count;
    MulLe(i + 1, refCount, count);
    assert i * count < count * refCount;
    if q >= count {
      MulLe(count, q, refCount);
      assert false;
    }
  }

  /** The boundary index (i * count) / refCount of the loop index i. */
  function ScaledIdx(i: int, count: int, refCount: int): (idx: int)
    requires 0 <= i < refCount <= count
    ensures 0 <= idx < count
  {
    ScaledIndex(i, count, refCount);
    (i * count) / refCount
  }

  /** The loop index of the k-th stored point. */
  function LoopIndex(inner: seq<Vec2>, outer: seq<Vec2>, targetCount: int, k: int): (i: int)
    requires targetCount > 0 && 0 <= k < SampleCount(inner, outer, targetCount)
    ensures 0 <= i < RefCount(inner, outer)
  {
    SampleBounds(inner, outer, targetCount, k);
    k * Step(RefCount(inner, outer), targetCount)
  }

  /** The boundary points behind the k-th stored point. */
  function BoundaryPair(inner: seq<Vec2>, outer: seq<Vec2>, targetCount: int, k: int): (Vec2, Vec2)
    requires targetCount > 0 && 0 <= k < SampleCount(inner, outer, targetCount)
  {
    var r := RefCount(inner, outer);
    var i := LoopIndex(inner, outer, targetCount, k);
    (inner[ScaledIdx(i, |inner|, r)], outer[ScaledIdx(i, |outer|, r)])
  }

  /** The position of the k-th stored point. */
  function SamplePosition(inner: seq<Vec2>, outer: seq<Vec2>, targetCount: int, k: int): Vec2
    requires targetCount > 0 && 0 <= k < SampleCount(inner, outer, targetCount)
  {
    var (lo, hi) := BoundaryPair(inner, outer, targetCount, k);
    Interpolate(lo, hi, APEX_BIAS)
  }

  /** What the first pass writes into a point: position, bounds and width. */
  function FirstPass(p: RacingLinePoint, inner: seq<Vec2>, outer: seq<Vec2>, targetCount: int, k: int): RacingLinePoint
    requires targetCount > 0 && 0 <= k < SampleCount(inner, outer, targetCount)
  {
    var (lo, hi) := BoundaryPair(inner, outer, targetCount, k);
    p.(position := SamplePosition(inner, outer, targetCount, k), leftBound := lo, rightBound := hi,
       trackWidth := Distance(lo, hi))
  }

  /** The cyclic neighbours of index k on a line of n points. */
  function PrevIndex(k: int, n: int): (j: int)
    requires 0 <= k < n
    ensures 0 <= j < n && (k == 0 ==> j == n - 1) && (k > 0 ==> j == k - 1)
  {
    (k - 1 + n) % n
  }

  function NextIndex(k: int, n: int): (j: int)
    requires 0 <= k < n
    ensures 0 <= j < n && (k == n - 1 ==> j == 0) && (k < n - 1 ==> j == k + 1)
  {
    (k + 1) % n
  }

  /** What the second pass writes into a point, given its neighbours' positions. */
  function Finish(p: RacingLinePoint, prev: Vec2, next: Vec2): RacingLinePoint
  {
    var sharpness := Curvature(prev, p.position, next);
    p.(cornerSharpness := sharpness, targetSpeed := TargetSpeed(sharpness),
       tangentAngle512 := AngleOf(Sub(next, p.position)))
  }

  /**
   * The k-th finished point: first-pass fields, then sharpness, speed and
   * tangent from its cyclic neighbours (the last point's next is the first).
   */
  function LinePoint(inner: seq<Vec2>, outer: seq<Vec2>, targetCount: int, k: int): RacingLinePoint
    requires targetCount > 0 && 0 <= k < SampleCount(inner, outer, targetCount)
  {
    var n := SampleCount(inner, outer, targetCount);
    Finish(FirstPass(EMPTY_POINT, inner, outer, targetCount, k),
           SamplePosition(inner, outer, targetCount, PrevIndex(k, n)),
           SamplePosition(inner, outer, targetCount, NextIndex(k, n)))
  }

  /**
   * Finishing a point that holds its first-pass fields gives the finished
   * point, whatever its other fields held before.
   */
  lemma FinishFirstPass(p: RacingLinePoint, inner: seq<Vec2>, outer: seq<Vec2>, targetCount: int, k: int)
    requires targetCount > 0 && 0 <= k < SampleCount(inner, outer, targetCount)
    requires p == FirstPass(p, inner, outer, targetCount, k)
    ensures var n := SampleCount(inner, outer, targetCount);
      Finish(p, SamplePosition(inner, outer, targetCount, PrevIndex(k, n)),
                SamplePosition(inner, outer, targetCount, NextIndex(k, n))) ==
      LinePoint(inner, outer, targetCount, k)
  {
  }

  /** The whole generated line. */
  function LinePoints(inner: seq<Vec2>, outer: seq<Vec2>, targetCount: int): (ps: seq<RacingLinePoint>)
    requires targetCount > 0
    ensures |ps| == SampleCount(inner, outer, targetCount)
    ensures forall k | 0 <= k < |ps| :: ps[k] == LinePoint(inner, outer, targetCount, k)
  {
    seq(SampleCount(inner, outer, targetCount),
        k requires 0 <= k < SampleCount(inner, outer, targetCount) => LinePoint(inner, outer, targetCount, k))
  }

  /** Every slot in use holds its sample position. */
  ghost predicate PositionsSampled(ps: seq<RacingLinePoint>, inner: seq<Vec2>, outer: seq<Vec2>, targetCount: int)
    requires targetCount > 0
  {
    var n := SampleCount(inner, outer, targetCount);
    n <= |ps| && forall j | 0 <= j < n :: ps[j].position == SamplePosition(inner, outer, targetCount, j)
  }

  /**
   * The state of the second loop before iteration i: slots below i are
   * finished, slots from i on hold their first-pass fields, and the slots
   * past the line are as they were before the loop.
   */
  ghost predicate SecondPassState(ps: seq<RacingLinePoint>, before: seq<RacingLinePoint>,
                                  inner: seq<Vec2>, outer: seq<Vec2>, targetCount: int, i: int)
  {
    targetCount > 0 && |ps| == |before| == MAX_RACING_LINE_POINTS &&
    var n := SampleCount(inner, outer, targetCount);
    0 <= i <= n &&
    (forall j | i <= j < n :: ps[j] == FirstPass(ps[j], inner, outer, targetCount, j)) &&
    PositionsSampled(ps, inner, outer, targetCount) &&
    ps[..i] == LinePoints(inner, outer, targetCount)[..i] &&
    ps[n..] == before[n..]
  }

  /** The first pass leaves the loop's starting state. */
  lemma SecondPassStart(ps: seq<RacingLinePoint>, inner: seq<Vec2>, outer: seq<Vec2>, targetCount: int)
    requires targetCount > 0 && |ps| == MAX_RACING_LINE_POINTS
    requires forall j | 0 <= j < SampleCount(inner, outer, targetCount) :: ps[j] == FirstPass(ps[j], inner, outer, targetCount, j)
    ensures SecondPassState(ps, ps, inner, outer, targetCount, 0)
  {
    var n := SampleCount(inner, outer, targetCount);
    forall j | 0 <= j < n
      ensures ps[j].position == SamplePosition(inner, outer, targetCount, j)
    {
      assert ps[j] == FirstPass(ps[j], inner, outer, targetCount, j);
    }
  }

  /** Point i is ready to be finished. */
  lemma SecondPassReady(ps: seq<RacingLinePoint>, before: seq<RacingLinePoint>,
                        inner: seq<Vec2>, outer: seq<Vec2>, targetCount: int, i: int)
    requires SecondPassState(ps, before, inner, outer, targetCount, i) && i < SampleCount(inner, outer, targetCount)
    ensures ps[i] == FirstPass(ps[i], inner, outer, targetCount, i)
    ensures PositionsSampled(ps, inner, outer, targetCount)
  {
  }

  /** Finishing point i moves the loop on by one. */
  lemma SecondPassStep(ps: seq<RacingLinePoint>, before: seq<RacingLinePoint>,
                       inner: seq<Vec2>, outer: seq<Vec2>, targetCount: int, i: int)
    requires SecondPassState(ps, before, inner, outer, targetCount, i) && i < SampleCount(inner, outer, targetCount)
    ensures SecondPassState(ps[i := LinePoint(inner, outer, targetCount, i)], before, inner, outer, targetCount, i + 1)
  {
    var n := SampleCount(inner, outer, targetCount);
    var line := LinePoints(inner, outer, targetCount);
    var qs := ps[i := LinePoint(inner, outer, targetCount, i)];
    assert qs[i].position == SamplePosition(inner, outer, targetCount, i);
    assert PositionsSampled(qs, inner, outer, targetCount) by {
      forall j | 0 <= j < n
        ensures qs[j].position == SamplePosition(inner, outer, targetCount, j)
      {
        if j != i {
          assert qs[j] == ps[j];
        }
      }
    }
    assert qs[..i + 1] == line[..i + 1] by {
      assert qs[..i + 1] == ps[..i] + [line[i]];
      assert line[..i + 1] == line[..i] + [line[i]];
    }
    assert qs[n..] == ps[n..];
  }

  /** After the last iteration the slots in use hold the line and the rest are untouched. */
  lemma SecondPassEnd(ps: seq<RacingLinePoint>, before: seq<RacingLinePoint>,
                      inner: seq<Vec2>, outer: seq<Vec2>, targetCount: int)
    requires targetCount > 0 && SecondPassState(ps, before, inner, outer, targetCount, SampleCount(inner, outer, targetCount))
    ensures var n := SampleCount(inner, outer, targetCount);
      ps[..n] == LinePoints(inner, outer, targetCount) && ps[n..] == before[n..]
  {
  }

  /**
   * Each generated point sits half-way between a point of the inner and a
   * point of the outer boundary, which are its bounds, and its width is
   * their distance.
   */
  lemma PointBetweenBounds(inner: seq<Vec2>, outer: seq<Vec2>, k: int)
    requires 0 <= k < SampleCount(inner, outer, MAX_RACING_LINE_POINTS)
    ensures var p := LinePoint(inner, outer, MAX_RACING_LINE_POINTS, k);
      p.leftBound in inner && p.rightBound in outer &&
      p.position == Interpolate(p.leftBound, p.rightBound, APEX_BIAS) &&
      (p.leftBound.x <= p.position.x <= p.rightBound.x || p.rightBound.x <= p.position.x <= p.leftBound.x) &&
      (p.leftBound.y <= p.position.y <= p.rightBound.y || p.rightBound.y <= p.position.y <= p.leftBound.y) &&
      p.trackWidth == Distance(p.leftBound, p.rightBound)
  {
    var p := LinePoint(inner, outer, MAX_RACING_LINE_POINTS, k);
    var (lo, hi) := BoundaryPair(inner, outer, MAX_RACING_LINE_POINTS, k);
    var r := RefCount(inner, outer);
    var i := LoopIndex(inner, outer, MAX_RACING_LINE_POINTS, k);
    assert p.leftBound == lo == inner[ScaledIdx(i, |inner|, r)];
    assert p.rightBound == hi == outer[ScaledIdx(i, |outer|, r)];
    InterpolateMidpoint(lo, hi);
  }

  /**
   * The line is closed: each point's tangent points at the next point (the
   * last at the first), its sharpness is the turn from the previous point
   * through it to the next, in 0..200, and its speed is the one for that
   * sharpness.
   */
  lemma LineIsClosed(inner: seq<Vec2>, outer: seq<Vec2>, k: int)
    requires 0 <= k < SampleCount(inner, outer, MAX_RACING_LINE_POINTS)
    ensures var n := SampleCount(inner, outer, MAX_RACING_LINE_POINTS);
      var p := LinePoint(inner, outer, MAX_RACING_LINE_POINTS, k);
      var prev := LinePoint(inner, outer, MAX_RACING_LINE_POINTS, PrevIndex(k, n));
      var next := LinePoint(inner, outer, MAX_RACING_LINE_POINTS, NextIndex(k, n));
      p.tangentAngle512 == AngleOf(Sub(next.position, p.position)) &&
      p.cornerSharpness == Curvature(prev.position, p.position, next.position) &&
      0 <= p.cornerSharpness <= 200 && p.targetSpeed == TargetSpeed(p.cornerSharpness)
  {
  }

  /** No boundary points, no line; otherwise at least one point and never more than 64. */
  lemma LineSize(inner: seq<Vec2>, outer: seq<Vec2>)
    ensures var n := |LinePoints(inner, outer, MAX_RACING_LINE_POINTS)|;
      n <= MAX_RACING_LINE_POINTS && (n == 0 <==> |inner| == 0 || |outer| == 0)
  {
  }

  /**
   * With between 65 and 127 reference points the step is 1, so the 64 stored
   * points are the first 64 reference points and the rest of the lap is not
   * sampled: the last point's "next" is the first point, far along the track.
   */
  lemma {:induction false} ShortStepStopsEarly(inner: seq<Vec2>, outer: seq<Vec2>)
    requires 64 < RefCount(inner, outer) < 128
    ensures Step(RefCount(inner, outer), MAX_RACING_LINE_POINTS) == 1
    ensures SampleCount(inner, outer, MAX_RACING_LINE_POINTS) == 64
    ensures forall k | 0 <= k < 64 :: k * Step(RefCount(inner, outer), MAX_RACING_LINE_POINTS) <= 63
  {
  }

  // ---------------------------------------------------------------------
  // Queries
  // ---------------------------------------------------------------------

  function PointDistances(pos: Vec2, ps: seq<RacingLinePoint>): (ds: seq<int>)
    ensures |ds| == |ps|
  {
    seq(|ps|, i requires 0 <= i < |ps| => DistanceSquared(pos, ps[i].position))
  }

  /** RacingLine_GetNearestPoint: the empty point and -1 on an empty line. */
  function Nearest(ps: seq<RacingLinePoint>, pos: Vec2): (r: (RacingLinePoint, int))
  {
    if ps == [] then (EMPTY_POINT, -1)
    else
      var ds := PointDistances(pos, ps);
      RunMinIsFirstMinimum(ds, |ps|, 0, FAR_AWAY);
      var i := RunMin(ds, |ps|, 0, FAR_AWAY).0;
      (ps[i], i)
  }

  /**
   * On a non-empty line the index is valid, the point is the one stored
   * there, no point is closer, and every earlier point is farther; index 0
   * when nothing is closer than FAR_AWAY.
   */
  lemma NearestIsFirstClosest(ps: seq<RacingLinePoint>, pos: Vec2)
    ensures var (p, i) := Nearest(ps, pos);
      var ds := PointDistances(pos, ps);
      (ps == [] ==> p == EMPTY_POINT && i == -1) &&
      (ps != [] ==>
         0 <= i < |ps| && p == ps[i] &&
         (forall k | 0 <= k < |ps| && ds[k] < FAR_AWAY :: ds[i] <= ds[k]) &&
         (forall k | 0 <= k < i :: ds[k] > ds[i]) &&
         (i == 0 || ds[i] < FAR_AWAY))
  {
    if ps != [] {
      RunMinIsFirstMinimum(PointDistances(pos, ps), |ps|, 0, FAR_AWAY);
    }
  }

  /** RacingLine_IsOnTrack: the distances to the nearest point's bounds sum to at most 5/4 of its width. */
  function LineOnTrack(ps: seq<RacingLinePoint>, pos: Vec2): bool
  {
    var nearest := Nearest(ps, pos).0;
    if IsZero(nearest.position) then false
    else
      Distance(pos, nearest.leftBound) + Distance(pos, nearest.rightBound) <=
        nearest.trackWidth + nearest.trackWidth / 4
  }

  /** RacingLine_GetDistanceToEdge: half the nearest point's width less the distance to its nearer bound. */
  function LineDistanceToEdge(ps: seq<RacingLinePoint>, pos: Vec2): int
  {
    var nearest := Nearest(ps, pos).0;
    if IsZero(nearest.position) then 0
    else
      var distToInner := Distance(pos, nearest.leftBound);
      var distToOuter := Distance(pos, nearest.rightBound);
      var minEdgeDist := if distToInner < distToOuter then distToInner else distToOuter;
      nearest.trackWidth / 2 - minEdgeDist
  }

  /** An empty line: nothing is on track and the edge value is 0. */
  lemma EmptyLineQueries(pos: Vec2)
    ensures !LineOnTrack([], pos) && LineDistanceToEdge([], pos) == 0
  {
  }

  /**
   * On track, the edge value is negative by at most an eighth of the width
   * (rounded): the nearer bound is at most half the distance sum away.
   */
  lemma OnLineBoundsEdgeValue(ps: seq<RacingLinePoint>, pos: Vec2)
    requires LineOnTrack(ps, pos)
    ensures var w := Nearest(ps, pos).0.trackWidth;
      2 * LineDistanceToEdge(ps, pos) >= 2 * (w / 2) - w - w / 4
  {
  }
}
