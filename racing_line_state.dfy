/**
 * The statics of racing_line.c (the line and the boundary tables it was
 * built from) as the fields of the class Line, and the functions that fill
 * and query them. The Scorching Sands boundary tables are not part of this
 * model; Generate takes them as parameters.
 */
module RacingLineState {
  import opened FixedMath
  import opened GameTypes
  import opened MinScan
  import opened RacingLine

  /** currentRacingLine and the boundary tables it was generated from. */
  class Line {
    const points: array<RacingLinePoint>
    var count: int
    var inner: seq<Vec2>
    var outer: seq<Vec2>

    predicate Valid()
      reads this
    {
      points.Length == MAX_RACING_LINE_POINTS && 0 <= count <= MAX_RACING_LINE_POINTS
    }

    /** The points currently in use. */
    function Current(): seq<RacingLinePoint>
      reads this, points
      requires Valid()
    {
      points[..count]
    }

    /** The statics as the program starts: an empty line, no boundaries. */
    constructor()
      ensures Valid() && fresh(points) && count == 0 && inner == [] && outer == []
      ensures points[..] == seq(MAX_RACING_LINE_POINTS, _ => EMPTY_POINT)
    {
      points := new RacingLinePoint[MAX_RACING_LINE_POINTS](_ => EMPTY_POINT);
      count := 0;
      inner := [];
      outer := [];
    }

    /**
     * generateRacingLinePoints: the first pass stores every step-th sample's
     * position, bounds and width; the second pass adds sharpness, speed and
     * tangent from the neighbours. Points past the new count are untouched.
     */
    method GeneratePoints(targetCount: int)
      requires Valid() && targetCount > 0
      modifies this, points
      ensures Valid() && inner == old(inner) && outer == old(outer)
      ensures Current() == LinePoints(inner, outer, targetCount)
      ensures points[count..] == old(points[..])[count..]
    {
      var refCount := if |inner| < |outer| then |inner| else |outer|;
      var step := refCount / targetCount;
      if step < 1 {
        step := 1;
      }
      assert step == Step(refCount, targetCount);
      count := 0;
      var i := 0;
      while i < refCount && count < MAX_RACING_LINE_POINTS
        invariant inner == old(inner) && outer == old(outer) && points.Length == MAX_RACING_LINE_POINTS
        invariant 0 <= count <= SampleCount(inner, outer, targetCount) && i == count * step
        invariant forall j | 0 <= j < count :: points[j] == FirstPass(points[j], inner, outer, targetCount, j)
        invariant forall j | count <= j < MAX_RACING_LINE_POINTS :: points[j] == old(points[j])
        decreases MAX_RACING_LINE_POINTS - count
      {
        SampleBounds(inner, outer, targetCount, count);
        SampleNext(targetCount, i, refCount);
        assert (count + 1) * step == count * step + step;
        count := count + 1;
        i := i + step;
      }
      SampleBounds(inner, outer, targetCount, count);
      SecondPass(targetCount);
    }

    /** One turn of the first loop of generateRacingLinePoints: the sample at loop index i goes to points[count]. */
    method SampleNext(targetCount: int, i: int, refCount: int)
      requires Valid() && targetCount > 0 && 0 <= count < SampleCount(inner, outer, targetCount)
      requires refCount == RefCount(inner, outer) && i == count * Step(refCount, targetCount)
      modifies points
      ensures points[count] == FirstPass(old(points[count]), inner, outer, targetCount, count)
      ensures points[count] == FirstPass(points[count], inner, outer, targetCount, count)
      ensures forall j | 0 <= j < points.Length && j != count :: points[j] == old(points[j])
    {
      SampleBounds(inner, outer, targetCount, count);
      assert i == LoopIndex(inner, outer, targetCount, count);
      ScaledIndex(i, |inner|, refCount);
      ScaledIndex(i, |outer|, refCount);
      var innerIdx := (i * |inner|) / refCount;
      var outerIdx := (i * |outer|) / refCount;
      var lo := inner[innerIdx];
      var hi := outer[outerIdx];
      assert (lo, hi) == BoundaryPair(inner, outer, targetCount, count);
      points[count] := points[count].(leftBound := lo, rightBound := hi);
      points[count] := points[count].(trackWidth := Distance(lo, hi));
      var apexBias := IntToFixed(50) / 100;
      points[count] := points[count].(position := Interpolate(lo, hi, apexBias));
    }

    /** The second loop of generateRacingLinePoints. */
    method SecondPass(targetCount: int)
      requires Valid() && targetCount > 0 && count == SampleCount(inner, outer, targetCount)
      requires forall j | 0 <= j < count :: points[j] == FirstPass(points[j], inner, outer, targetCount, j)
      modifies points
      ensures Current() == LinePoints(inner, outer, targetCount)
      ensures points[count..] == old(points[..])[count..]
    {
      ghost var before := points[..];
      SecondPassStart(before, inner, outer, targetCount);
      var i := 0;
      while i < count
        invariant SecondPassState(points[..], before, inner, outer, targetCount, i)
        decreases count - i
      {
        FinishNext(targetCount, i, before);
        i := i + 1;
      }
      SecondPassEnd(points[..], before, inner, outer, targetCount);
    }

    /** The body of the second loop, as a step of its loop state. */
    method FinishNext(targetCount: int, i: int, ghost before: seq<RacingLinePoint>)
      requires Valid() && targetCount > 0 && count == SampleCount(inner, outer, targetCount) && 0 <= i < count
      requires SecondPassState(points[..], before, inner, outer, targetCount, i)
      modifies points
      ensures SecondPassState(points[..], before, inner, outer, targetCount, i + 1)
    {
      ghost var ps := points[..];
      SecondPassReady(ps, before, inner, outer, targetCount, i);
      FinishPoint(targetCount, i);
      SecondPassStep(ps, before, inner, outer, targetCount, i);
    }

    /** One iteration of the second loop: point i gets its sharpness, speed and tangent. */
    method FinishPoint(targetCount: int, i: int)
      requires Valid() && targetCount > 0 && count == SampleCount(inner, outer, targetCount) && 0 <= i < count
      requires points[i] == FirstPass(points[i], inner, outer, targetCount, i)
      requires PositionsSampled(points[..], inner, outer, targetCount)
      modifies points
      ensures points[..] == old(points[..])[i := LinePoint(inner, outer, targetCount, i)]
    {
      var prevIdx := (i - 1 + count) % count;
      var nextIdx := (i + 1) % count;
      assert prevIdx == PrevIndex(i, count) && nextIdx == NextIndex(i, count);
      var prev := points[prevIdx].position;
      var next := points[nextIdx].position;
      assert prev == points[..][prevIdx].position && next == points[..][nextIdx].position;
      var sharpness := Curvature(prev, points[i].position, next);
      var tangent := Sub(next, points[i].position);
      var angle := ToAngle(tangent);
      ghost var first := points[i];
      points[i] := points[i].(cornerSharpness := sharpness, targetSpeed := TargetSpeed(sharpness),
                             tangentAngle512 := angle);
      assert points[i] == Finish(first, prev, next);
      FinishFirstPass(first, inner, outer, targetCount, i);
    }

    /**
     * RacingLine_Generate: only Scorching Sands has boundary tables; for it
     * the line is rebuilt with a target of 64 points, and any other map
     * leaves the line and the tables as they were.
     */
    method Generate(m: Map, sandsInner: seq<Vec2>, sandsOuter: seq<Vec2>)
      requires Valid()
      modifies this, points
      ensures Valid()
      ensures m == ScorchingSands ==>
        inner == sandsInner && outer == sandsOuter &&
        Current() == LinePoints(sandsInner, sandsOuter, MAX_RACING_LINE_POINTS) &&
        points[count..] == old(points[..])[count..]
      ensures m != ScorchingSands ==>
        count == old(count) && inner == old(inner) && outer == old(outer) && points[..] == old(points[..])
    {
      if m == ScorchingSands {
        inner := sandsInner;
        outer := sandsOuter;
        GeneratePoints(64);
      }
    }

    /** RacingLine_GetNearestPoint: a running-minimum scan of the points in use. */
    method GetNearestPoint(pos: Vec2) returns (nearest: RacingLinePoint, outIndex: int)
      requires Valid()
      ensures (nearest, outIndex) == Nearest(Current(), pos)
    {
      if count == 0 {
        return EMPTY_POINT, -1;
      }
      ghost var ds := PointDistances(pos, Current());
      var nearestDistSq := FAR_AWAY;
      var nearestIdx := 0;
      var i := 0;
      while i < count
        invariant 0 <= i <= count
        invariant (nearestIdx, nearestDistSq) == RunMin(ds, i, 0, FAR_AWAY)
      {
        var distSq := DistanceSquared(pos, points[i].position);
        if distSq < nearestDistSq {
          nearestDistSq := distSq;
          nearestIdx := i;
        }
        i := i + 1;
      }
      RunMinIsFirstMinimum(ds, count, 0, FAR_AWAY);
      outIndex := nearestIdx;
      nearest := points[nearestIdx];
    }

    /** RacingLine_IsOnTrack. */
    method IsOnTrack(pos: Vec2) returns (r: bool)
      requires Valid()
      ensures r == LineOnTrack(Current(), pos)
    {
      var nearest, nearestIdx := GetNearestPoint(pos);
      if IsZero(nearest.position) {
        return false;
      }
      var distToInner := Distance(pos, nearest.leftBound);
      var distToOuter := Distance(pos, nearest.rightBound);
      var trackWidth := nearest.trackWidth;
      var sumDist := distToInner + distToOuter;
      var tolerance := trackWidth / 4;
      r := sumDist <= trackWidth + tolerance;
    }

    /** RacingLine_GetDistanceToEdge. */
    method GetDistanceToEdge(pos: Vec2) returns (d: int)
      requires Valid()
      ensures d == LineDistanceToEdge(Current(), pos)
    {
      var nearest, nearestIdx := GetNearestPoint(pos);
      if IsZero(nearest.position) {
        return 0;
      }
      var distToInner := Distance(pos, nearest.leftBound);
      var distToOuter := Distance(pos, nearest.rightBound);
      var minEdgeDist := if distToInner < distToOuter then distToInner else distToOuter;
      var halfWidth := nearest.trackWidth / 2;
      d := halfWidth - minEdgeDist;
    }
  }
}
