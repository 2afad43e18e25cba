// Route geometry rules of the map layer: multi-stop segment construction, the
// visible prefix of an animated polyline, the per-segment progress of a
// multi-segment route, and the distance-marker positions. Drawing itself is
// not modelled; a polyline is drawn when it has at least two points.

module RoutePolylines {
  import opened RideModel

  datatype RouteColor = PrimaryRoute | SecondaryRoute | PlannedRoute | CompletedRoute | PickupRoute | DropoffRoute

  const MediumWidth: real := 12.0

  datatype SegmentType = NORMAL | PICKUP | DROPOFF | COMPLETED

  datatype RouteSegment = RouteSegment(
    points: seq<LatLng>,
    color: RouteColor := PrimaryRoute,
    width: real := MediumWidth,
    segmentType: SegmentType := NORMAL)

  // ---------------------------------------------------------------------------
  // Route factory

  function CreatePickupRoute(driverLocation: LatLng, pickupLocation: LatLng): RouteSegment {
    RouteSegment([driverLocation, pickupLocation], PickupRoute, MediumWidth, PICKUP)
  }

  function CreateDropoffRoute(pickupLocation: LatLng, dropoffLocation: LatLng): RouteSegment {
    RouteSegment([pickupLocation, dropoffLocation], DropoffRoute, MediumWidth, DROPOFF)
  }

  /** The places a multi-stop route passes through, in order; without pickups the driver is not on it. */
  function Stops(driverLocation: LatLng, pickups: seq<LatLng>, dropoffs: seq<LatLng>): seq<LatLng> {
    if |pickups| > 0 then [driverLocation] + pickups + dropoffs else dropoffs
  }

  /** The `k`-th leg of a route through `stops`: a pickup leg for the first `pickupCount` legs, a drop-off leg after. */
  function Leg(stops: seq<LatLng>, pickupCount: nat, k: nat): RouteSegment
    requires k + 1 < |stops|
  {
    if k < pickupCount then RouteSegment([stops[k], stops[k + 1]], PickupRoute, MediumWidth, PICKUP)
    else RouteSegment([stops[k], stops[k + 1]], DropoffRoute, MediumWidth, DROPOFF)
  }

  /**
   * One leg from the driver to the first pickup, one between consecutive pickups, one from the last
   * pickup to the first drop-off, one between consecutive drop-offs.
   */
  method CreateMultiStopRoute(driverLocation: LatLng, pickups: seq<LatLng>, dropoffs: seq<LatLng>)
    returns (segments: seq<RouteSegment>)
    ensures var stops := Stops(driverLocation, pickups, dropoffs);
      |segments| == (if |stops| == 0 then 0 else |stops| - 1) &&
      forall k :: 0 <= k < |segments| ==> segments[k] == Leg(stops, |pickups|, k)
    ensures |segments| == (if |pickups| > 0 then 1 else 0) + (if |pickups| > 1 then |pickups| - 1 else 0)
                        + (if |pickups| > 0 && |dropoffs| > 0 then 1 else 0) + (if |dropoffs| > 1 then |dropoffs| - 1 else 0)
    ensures forall k :: 0 <= k < |segments| ==> |segments[k].points| == 2
    ensures |pickups| > 0 ==> segments[0].points[0] == driverLocation
    ensures forall k :: 0 <= k < |segments| - 1 ==> segments[k].points[1] == segments[k + 1].points[0]
    ensures forall k, l :: 0 <= k < l < |segments| && segments[l].segmentType == PICKUP ==>
              segments[k].segmentType == PICKUP
  {
    ghost var stops := Stops(driverLocation, pickups, dropoffs);
    var p, d := |pickups|, |dropoffs|;
    segments := [];
    if p > 0 {
      segments := segments + [CreatePickupRoute(driverLocation, pickups[0])];
    }
    var i := 0;
    while i < p - 1
      invariant p > 0 ==> 0 <= i <= p - 1 && |segments| == i + 1
      invariant p == 0 ==> i == 0 && segments == []
      invariant forall k :: 0 <= k < |segments| ==> segments[k] == Leg(stops, p, k)
    {
      assert stops[i + 1] == pickups[i] && stops[i + 2] == pickups[i + 1];
      segments := segments + [RouteSegment([pickups[i], pickups[i + 1]], PickupRoute, segmentType := PICKUP)];
      i := i + 1;
    }
    if p > 0 && d > 0 {
      assert stops[p] == pickups[p - 1] && stops[p + 1] == dropoffs[0];
      segments := segments + [CreateDropoffRoute(pickups[p - 1], dropoffs[0])];
    }
    ghost var offset := if p > 0 then p + 1 else 0;
    var j := 0;
    while j < d - 1
      invariant d > 0 ==> 0 <= j <= d - 1 && |segments| == offset + j
      invariant d == 0 ==> j == 0 && |segments| == p
      invariant forall k :: 0 <= k < |segments| ==> segments[k] == Leg(stops, p, k)
    {
      assert stops[offset + j] == dropoffs[j] && stops[offset + j + 1] == dropoffs[j + 1];
      segments := segments + [RouteSegment([dropoffs[j], dropoffs[j + 1]], DropoffRoute, segmentType := DROPOFF)];
      j := j + 1;
    }
  }

  // ---------------------------------------------------------------------------
  // Distance markers

  /** Markers at the quarter points of the list: index (k+1)·n/4 for k = 0, 1, 2, when there are at least four points. */
  function DistanceMarkerPositions(points: seq<LatLng>): (r: seq<LatLng>)
    ensures |r| == if |points| >= 4 then 3 else 0
    ensures forall k :: 0 <= k < |r| ==> (k + 1) * |points| / 4 < |points| && r[k] == points[(k + 1) * |points| / 4]
  {
    if |points| >= 4 then
      [points[|points| / 4], points[|points| / 2], points[3 * |points| / 4]]
    else
      []
  }

  // ---------------------------------------------------------------------------
  // Animated polyline: the visible prefix

  /** Kotlin's `Float.toInt()`: rounds toward zero. */
  function Truncate(x: real): int {
    if x >= 0.0 then x.Floor else -((-x).Floor)
  }

  lemma TruncateMonotonic(x: real, y: real)
    requires x <= y
    ensures Truncate(x) <= Truncate(y)
  {
    if 0.0 <= x {
      assert x.Floor as real <= x <= y;
    } else if y < 0.0 {
      assert (-y).Floor as real <= -y <= -x;
    }
  }

  /** Scaling by a non-negative factor keeps the order. */
  lemma ScaleMonotonic(n: real, a: real, b: real)
    requires 0.0 <= n && a <= b
    ensures n * a <= n * b
  {
    var d := b - a;
    assert n * b == n * a + n * d;
  }

  /** The last index drawn at `progress`: the truncated share of the points, at most the last index. */
  function TargetIndex(size: nat, progress: real): int {
    var t := Truncate(size as real * progress);
    if t <= size - 1 then t else size - 1
  }

  lemma TargetIndexMonotonic(size: nat, p1: real, p2: real)
    requires 0.0 <= p1 <= p2
    ensures TargetIndex(size, p1) <= TargetIndex(size, p2)
  {
    ScaleMonotonic(size as real, p1, p2);
    TruncateMonotonic(size as real * p1, size as real * p2);
  }

  /** The points of a route drawn at animation progress `progress`. */
  function VisiblePoints(points: seq<LatLng>, progress: real): (r: seq<LatLng>)
    ensures |r| <= |points| && r == points[..|r|]
    ensures progress >= 1.0 ==> r == points
    ensures |points| > 0 ==> |r| >= 1
    ensures |points| > 0 && progress < 1.0 && Truncate(|points| as real * progress) <= 0 ==> |r| == 1
  {
    if progress >= 1.0 then points
    else
      var targetIndex := TargetIndex(|points|, progress);
      if targetIndex <= 0 then (if |points| > 0 then [points[0]] else [])
      else points[..targetIndex + 1]
  }

  /** More progress never shows fewer points: the drawn route only grows. */
  /** Below full progress, the shown prefix has floor(n * progress) + 1 points, n being the polyline's size. */
  lemma VisiblePointsCount(points: seq<LatLng>, progress: real)
    requires 0.0 <= progress < 1.0 && |points| > 0
    ensures (|VisiblePoints(points, progress)| - 1) as real <= |points| as real * progress
    ensures |points| as real * progress < |VisiblePoints(points, progress)| as real
  {
    var n := |points| as real;
    ScaleMonotonic(n, 0.0, progress);
    assert n * progress < n by {
      assert n * (1.0 - progress) > 0.0;
    }
    assert Truncate(n * progress) == (n * progress).Floor;
  }

  lemma VisiblePointsGrow(points: seq<LatLng>, p1: real, p2: real)
    requires 0.0 <= p1 <= p2
    ensures |VisiblePoints(points, p1)| <= |VisiblePoints(points, p2)|
    ensures VisiblePoints(points, p1) == VisiblePoints(points, p2)[..|VisiblePoints(points, p1)|]
  {
    if p2 < 1.0 {
      TargetIndexMonotonic(|points|, p1, p2);
    }
  }

  predicate Drawn(points: seq<LatLng>, progress: real) {
    |VisiblePoints(points, progress)| >= 2
  }

  // ---------------------------------------------------------------------------
  // Multi-segment route

  /** Segments before the current one are complete, the current one is at `progress`, later ones have not started. */
  function SegmentProgress(index: int, currentSegmentIndex: int, progress: real): real {
    if index < currentSegmentIndex then 1.0
    else if index == currentSegmentIndex then progress
    else 0.0
  }

  /** What a multi-segment route draws: segments before the current one whole, segments after it not at all. */
  lemma MultiSegmentDrawing(segments: seq<RouteSegment>, currentSegmentIndex: int, progress: real, i: nat)
    requires i < |segments|
    ensures i < currentSegmentIndex ==>
      VisiblePoints(segments[i].points, SegmentProgress(i, currentSegmentIndex, progress)) == segments[i].points
    ensures i > currentSegmentIndex ==> !Drawn(segments[i].points, SegmentProgress(i, currentSegmentIndex, progress))
    ensures i == currentSegmentIndex && progress >= 1.0 ==>
      VisiblePoints(segments[i].points, SegmentProgress(i, currentSegmentIndex, progress)) == segments[i].points
  {
    if i > currentSegmentIndex {
      assert Truncate(|segments[i].points| as real * 0.0) == 0;
    }
  }
}
