/**
 * Track geometry (track_geometry.c): on-track tests for the bots that work
 * from the inner and outer boundary polylines instead of the tilemap. The
 * module's statics are the boundary tables, NULL until a map that has them
 * is loaded. The Scorching Sands tables themselves are not part of this
 * model; Init takes them as parameters.
 */
module TrackGeometry {
  import opened FixedMath
  import opened GameTypes
  import opened MinScan

  /** The "nothing found yet" squared distance of the nearest-point scans. */
  const FAR_AWAY: int := IntToFixed(999999)

  /** The width reported before any boundary is loaded. */
  const DEFAULT_TRACK_WIDTH: int := IntToFixed(80)

  /** The squared distances from pos to each boundary point. */
  function BoundaryDistances(pos: Vec2, pts: seq<Vec2>): (ds: seq<int>)
    ensures |ds| == |pts|
  {
    seq(|pts|, i requires 0 <= i < |pts| => DistanceSquared(pos, pts[i]))
  }

  /** One scan of findNearestBoundaryPoints: the zero vector when no point beats FAR_AWAY. */
  function NearestOn(pos: Vec2, pts: seq<Vec2>): Vec2
  {
    var r := RunMin(BoundaryDistances(pos, pts), |pts|, -1, FAR_AWAY);
    RunMinIsFirstMinimum(BoundaryDistances(pos, pts), |pts|, -1, FAR_AWAY);
    if r.0 < 0 then Zero() else pts[r.0]
  }

  /**
   * The nearest point is the zero vector when no boundary point is closer
   * than FAR_AWAY; otherwise it is the first boundary point at the smallest
   * squared distance.
   */
  lemma NearestOnIsFirstClosest(pos: Vec2, pts: seq<Vec2>)
    ensures var ds := BoundaryDistances(pos, pts);
      ((forall k | 0 <= k < |pts| :: ds[k] >= FAR_AWAY) && NearestOn(pos, pts) == Zero()) ||
      (exists j | 0 <= j < |pts| ::
         NearestOn(pos, pts) == pts[j] && ds[j] < FAR_AWAY &&
         (forall k | 0 <= k < |pts| :: ds[j] <= ds[k]) &&
         (forall k | 0 <= k < j :: ds[k] > ds[j]))
  {
    var ds := BoundaryDistances(pos, pts);
    RunMinIsFirstMinimum(ds, |pts|, -1, FAR_AWAY);
    var r := RunMin(ds, |pts|, -1, FAR_AWAY);
    if r.0 >= 0 {
      assert NearestOn(pos, pts) == pts[r.0];
    }
  }

  /** TrackGeometry_IsOnTrack: both nearest points found and their distances sum to at most 4/3 of the width. */
  function OnTrack(loaded: bool, inner: seq<Vec2>, outer: seq<Vec2>, pos: Vec2): bool
  {
    if !loaded then false
    else
      var ni := NearestOn(pos, inner);
      var no := NearestOn(pos, outer);
      if IsZero(ni) || IsZero(no) then false
      else
        var trackWidth := Distance(ni, no);
        Distance(pos, ni) + Distance(pos, no) <= trackWidth + trackWidth / 3
  }

  /** TrackGeometry_GetDistanceToEdge: half the local width less the distance to the nearer boundary. */
  function DistanceToEdge(loaded: bool, inner: seq<Vec2>, outer: seq<Vec2>, pos: Vec2): int
  {
    if !loaded then 0
    else
      var ni := NearestOn(pos, inner);
      var no := NearestOn(pos, outer);
      var distToInner := Distance(pos, ni);
      var distToOuter := Distance(pos, no);
      var minEdgeDist := if distToInner < distToOuter then distToInner else distToOuter;
      Distance(ni, no) / 2 - minEdgeDist
  }

  /** TrackGeometry_GetTrackWidth: the distance between the two nearest boundary points. */
  function TrackWidth(loaded: bool, inner: seq<Vec2>, outer: seq<Vec2>, pos: Vec2): int
  {
    if !loaded then DEFAULT_TRACK_WIDTH else Distance(NearestOn(pos, inner), NearestOn(pos, outer))
  }

  /** Before a map with boundaries is loaded: off track, edge value 0, the default width. */
  lemma UnloadedDefaults(inner: seq<Vec2>, outer: seq<Vec2>, pos: Vec2)
    ensures !OnTrack(false, inner, outer, pos)
    ensures DistanceToEdge(false, inner, outer, pos) == 0
    ensures TrackWidth(false, inner, outer, pos) == DEFAULT_TRACK_WIDTH
  {
  }

  /**
   * A position counts as on track only when the boundaries are loaded and
   * each of them has a point closer than FAR_AWAY that is not the origin.
   */
  lemma OnTrackNeedsBothBoundaries(loaded: bool, inner: seq<Vec2>, outer: seq<Vec2>, pos: Vec2)
    requires OnTrack(loaded, inner, outer, pos)
    ensures loaded
    ensures exists j | 0 <= j < |inner| ::
      NearestOn(pos, inner) == inner[j] && !IsZero(inner[j]) && DistanceSquared(pos, inner[j]) < FAR_AWAY
    ensures exists j | 0 <= j < |outer| ::
      NearestOn(pos, outer) == outer[j] && !IsZero(outer[j]) && DistanceSquared(pos, outer[j]) < FAR_AWAY
  {
    NearestOnIsFirstClosest(pos, inner);
    NearestOnIsFirstClosest(pos, outer);
  }

  /**
   * On track, the edge value can be negative by at most a sixth of the
   * width: the nearer boundary is at most half the distance sum away.
   */
  lemma OnTrackBoundsEdgeValue(inner: seq<Vec2>, outer: seq<Vec2>, pos: Vec2)
    requires OnTrack(true, inner, outer, pos)
    ensures var w := TrackWidth(true, inner, outer, pos);
      2 * DistanceToEdge(true, inner, outer, pos) >= 2 * (w / 2) - w - w / 3
  {
  }

  /**
   * A position that is its own nearest inner point gets the largest edge
   * value, half the width: the value measures how far inside the band of
   * half-width around either boundary it lies, not the distance to the edge.
   */
  lemma EdgeValueOnTheBoundary(inner: seq<Vec2>, outer: seq<Vec2>, pos: Vec2)
    requires NearestOn(pos, inner) == pos
    ensures DistanceToEdge(true, inner, outer, pos) == TrackWidth(true, inner, outer, pos) / 2
  {
    DistanceProperties(pos, pos);
    DistanceProperties(pos, NearestOn(pos, outer));
  }

  /** The module statics: the boundary tables and whether they are set. */
  class Geometry {
    var loaded: bool
    var inner: seq<Vec2>
    var outer: seq<Vec2>

    /** The statics as the program starts: NULL tables, zero counts. */
    constructor()
      ensures !loaded && inner == [] && outer == []
    {
      loaded := false;
      inner := [];
      outer := [];
    }

    /** TrackGeometry_Init: only Scorching Sands has tables; any other map leaves the old ones. */
    method Init(m: Map, sandsInner: seq<Vec2>, sandsOuter: seq<Vec2>)
      modifies this
      ensures m == ScorchingSands ==> loaded && inner == sandsInner && outer == sandsOuter
      ensures m != ScorchingSands ==> loaded == old(loaded) && inner == old(inner) && outer == old(outer)
    {
      if m == ScorchingSands {
        inner := sandsInner;
        outer := sandsOuter;
        loaded := true;
      }
    }

    /** findNearestBoundaryPoints: two running-minimum scans. */
    method FindNearestBoundaryPoints(pos: Vec2) returns (nearestInner: Vec2, nearestOuter: Vec2)
      ensures nearestInner == NearestOn(pos, inner) && nearestOuter == NearestOn(pos, outer)
    {
      ghost var di := BoundaryDistances(pos, inner);
      ghost var dou := BoundaryDistances(pos, outer);
      ghost var bi := -1;
      ghost var bo := -1;
      var minInnerDistSq := FAR_AWAY;
      var minOuterDistSq := FAR_AWAY;
      nearestInner := Zero();
      nearestOuter := Zero();
      var i := 0;
      while i < |inner|
        invariant 0 <= i <= |inner|
        invariant (bi, minInnerDistSq) == RunMin(di, i, -1, FAR_AWAY)
        invariant -1 <= bi < i && nearestInner == if bi < 0 then Zero() else inner[bi]
      {
        var distSq := DistanceSquared(pos, inner[i]);
        if distSq < minInnerDistSq {
          minInnerDistSq := distSq;
          nearestInner := inner[i];
          bi := i;
        }
        i := i + 1;
      }
      i := 0;
      while i < |outer|
        invariant 0 <= i <= |outer|
        invariant (bo, minOuterDistSq) == RunMin(dou, i, -1, FAR_AWAY)
        invariant -1 <= bo < i && nearestOuter == if bo < 0 then Zero() else outer[bo]
      {
        var distSq := DistanceSquared(pos, outer[i]);
        if distSq < minOuterDistSq {
          minOuterDistSq := distSq;
          nearestOuter := outer[i];
          bo := i;
        }
        i := i + 1;
      }
    }

    /** TrackGeometry_IsOnTrack. */
    method IsOnTrack(pos: Vec2) returns (r: bool)
      ensures r == OnTrack(loaded, inner, outer, pos)
    {
      if !loaded {
        return false;
      }
      var nearestInner, nearestOuter := FindNearestBoundaryPoints(pos);
      if IsZero(nearestInner) || IsZero(nearestOuter) {
        return false;
      }
      var distToInner := Distance(pos, nearestInner);
      var distToOuter := Distance(pos, nearestOuter);
      var trackWidth := Distance(nearestInner, nearestOuter);
      var sumDist := distToInner + distToOuter;
      var tolerance := trackWidth / 3;
      r := sumDist <= trackWidth + tolerance;
    }

    /** TrackGeometry_GetDistanceToEdge. */
    method GetDistanceToEdge(pos: Vec2) returns (d: int)
      ensures d == DistanceToEdge(loaded, inner, outer, pos)
    {
      if !loaded {
        return 0;
      }
      var nearestInner, nearestOuter := FindNearestBoundaryPoints(pos);
      var distToInner := Distance(pos, nearestInner);
      var distToOuter := Distance(pos, nearestOuter);
      var minEdgeDist := if distToInner < distToOuter then distToInner else distToOuter;
      var trackWidth := Distance(nearestInner, nearestOuter);
      var halfWidth := trackWidth / 2;
      d := halfWidth - minEdgeDist;
    }

    /** TrackGeometry_GetTrackWidth. */
    method GetTrackWidth(pos: Vec2) returns (w: int)
      ensures w == TrackWidth(loaded, inner, outer, pos)
    {
      if !loaded {
        return DEFAULT_TRACK_WIDTH;
      }
      var nearestInner, nearestOuter := FindNearestBoundaryPoints(pos);
      w := Distance(nearestInner, nearestOuter);
    }
  }
}
