// The heading-to-drop-off sheet: its timed progression towards the last
// drop-off, the route stops it lists with their completed/current flags, and
// the stop that follows each stop.

module HeadingToDropOff {
  import opened RideModel

  const StartProgress: real := 0.4
  const Tick: real := 0.005

  /**
   * The progression effect. While visible it ticks until progress reaches 1.0, then calls the completion
   * callback once. `trace` is every progress value, the starting one first.
   */
  method RunHeadingToDropOff(isVisible: bool, start: real)
    returns (progress: real, completions: nat, trace: seq<real>)
    ensures !isVisible ==> progress == start && completions == 0 && trace == [start]
    ensures isVisible ==> progress >= 1.0 && completions == 1
    ensures isVisible && start < 1.0 ==> progress < 1.0 + Tick
    ensures |trace| >= 1 && trace[0] == start && trace[|trace| - 1] == progress
    ensures forall k :: 0 <= k < |trace| - 1 ==> trace[k] < 1.0 && trace[k + 1] == trace[k] + Tick
  {
    progress, completions, trace := start, 0, [start];
    if isVisible {
      while progress < 1.0
        invariant |trace| >= 1 && trace[0] == start && trace[|trace| - 1] == progress
        invariant forall k :: 0 <= k < |trace| - 1 ==> trace[k] < 1.0 && trace[k + 1] == trace[k] + Tick
        invariant start < 1.0 ==> progress < 1.0 + Tick
        invariant start >= 1.0 ==> progress == start
        decreases ((1.0 - progress) * 200.0).Floor
      {
        progress := progress + Tick;
        trace := trace + [progress];
      }
      if progress >= 1.0 {
        completions := completions + 1;
      }
    }
  }

  // ---------------------------------------------------------------------------
  // Route stops

  datatype StopType = STARTING_POINT | DROP_OFF_1 | DROP_OFF_2 | DESTINATION

  datatype RouteStop = RouteStop(
    stopType: StopType,
    location: string,
    passengerName: Option<string> := None,
    passengerInitials: Option<string> := None,
    isCompleted: bool := false,
    isCurrent: bool := false,
    stopNumber: Option<int> := None)

  /** The four stops of the sample trip, with the flags `progress` gives them. */
  function SampleRouteStops(progress: real := 0.4): seq<RouteStop> {
    [ RouteStop(STARTING_POINT, "Ladipo Oluwole Street", isCompleted := true),
      RouteStop(DROP_OFF_1, "Community Road", Some("Drop off Darrell Stewart"), Some("DS"),
                isCompleted := progress > 0.6, isCurrent := progress <= 0.6, stopNumber := Some(1)),
      RouteStop(DROP_OFF_2, "Community Road", Some("Drop off Hinata Chukwu"), Some("HC"),
                isCompleted := progress >= 1.0, isCurrent := 0.6 <= progress <= 0.99, stopNumber := Some(2)),
      RouteStop(DESTINATION, "Community Road", isCompleted := progress >= 1.0) ]
  }

  /** The stop the connecting line from a stop leads to. */
  function NextStop(t: StopType): Option<StopType> {
    match t
    case STARTING_POINT => Some(DROP_OFF_1)
    case DROP_OFF_1 => Some(DROP_OFF_2)
    case DROP_OFF_2 => Some(DESTINATION)
    case DESTINATION => None
  }

  /**
   * Four stops in route order, each followed by the next; the start is always completed, the first
   * drop-off is exactly one of completed and current, and the second drop-off and the destination are
   * completed together, exactly when progress reaches 1.0.
   */
  lemma SampleRouteStopsShape(progress: real)
    ensures var stops := SampleRouteStops(progress);
      |stops| == 4 &&
      stops[0].stopType == STARTING_POINT && stops[1].stopType == DROP_OFF_1 &&
      stops[2].stopType == DROP_OFF_2 && stops[3].stopType == DESTINATION &&
      (forall i :: 0 <= i < 3 ==> NextStop(stops[i].stopType) == Some(stops[i + 1].stopType)) &&
      NextStop(stops[3].stopType) == None &&
      stops[0].isCompleted &&
      (stops[1].isCompleted != stops[1].isCurrent) &&
      (stops[3].isCompleted <==> stops[2].isCompleted) &&
      (stops[2].isCompleted <==> progress >= 1.0)
  {
    var stops := SampleRouteStops(progress);
    forall i | 0 <= i < 3 ensures NextStop(stops[i].stopType) == Some(stops[i + 1].stopType) {
    }
  }

  /**
   * The sheet opens at the stops' default progress: the start is done, the first drop-off is the current
   * stop and is the only one, and nothing after it is done yet.
   */
  lemma StopsAtStart()
    ensures SampleRouteStops() == SampleRouteStops(StartProgress)
    ensures var stops := SampleRouteStops(StartProgress);
      stops[0].isCompleted && !stops[0].isCurrent &&
      stops[1].isCurrent && !stops[1].isCompleted &&
      !stops[2].isCurrent && !stops[2].isCompleted && !stops[3].isCompleted &&
      CurrentCount(stops) == 1
  {
    CurrentStops(StartProgress);
  }

  function CurrentCount(stops: seq<RouteStop>): nat {
    if stops == [] then 0 else (if stops[0].isCurrent then 1 else 0) + CurrentCount(stops[1..])
  }

  /**
   * How many stops are marked current: one for most progress values, but two at exactly 0.6 (both
   * drop-offs share that bound) and none above 0.99 (the second drop-off's range ends there).
   */
  lemma CurrentStops(progress: real)
    ensures CurrentCount(SampleRouteStops(progress)) ==
      if progress == 0.6 then 2
      else if progress > 0.99 then 0
      else 1
  {
    var stops := SampleRouteStops(progress);
    assert CurrentCount(stops[3..]) == 0 by {
      assert stops[3..][1..] == [];
    }
    assert CurrentCount(stops[2..]) == (if 0.6 <= progress <= 0.99 then 1 else 0) by {
      assert stops[2..][1..] == stops[3..];
    }
    assert CurrentCount(stops[1..]) == (if progress <= 0.6 then 1 else 0) + (if 0.6 <= progress <= 0.99 then 1 else 0) by {
      assert stops[1..][1..] == stops[2..];
    }
  }
}
