// What each command of the simulation engine does to a snapshot, as pure
// functions: the engine class replaces its state with these values, and the
// dispatch layer composes them. None of them looks at `currentEvent` first.

module RideTransitions {
  import opened RideModel

  /** Seat cap applied when a no-show frees a seat. */
  const MaxSeats: int := 4

  // ---------------------------------------------------------------------------
  // Sample data installed by the offer command

  const LagosCenter: LatLng := LatLng(6.5244, 3.3792)
  const LadipoOluwoleStreet: LatLng := LatLng(6.5378, 3.3516)
  const AromireStreet: LatLng := LatLng(6.5287, 3.3478)
  const CommunityRoad: LatLng := LatLng(6.5198, 3.3441)

  function SampleDriver(): Driver {
    Driver("driver_001", "Current Driver", 4.8, "vehicle_001", LagosCenter)
  }

  function SampleVehicle(): Vehicle {
    Vehicle("vehicle_001", "Sedan", "ABC-123-XY", LagosCenter, 2)
  }

  function SamplePassengers(): seq<Passenger> {
    var pickup := Location(LadipoOluwoleStreet, "Ladipo Oluwole Street", Some("Ladipo Oluwole Street"));
    [ Passenger("passenger_001", "Darrell Stewart", "DS", 4.7, pickup,
                Location(AromireStreet, "Aromire Street", Some("Aromire Street"))),
      Passenger("passenger_002", "Hinata Chukwu", "HC", 4.7, pickup,
                Location(CommunityRoad, "Community Road", Some("Community Road"))) ]
  }

  function SampleRoute(): Route {
    Route(
      Location(LagosCenter, "Current Location", Some("Driver Location")),
      Location(CommunityRoad, "Community Road", Some("Final Destination")),
      [ Location(LadipoOluwoleStreet, "Ladipo Oluwole Street", Some("Pickup Point")),
        Location(AromireStreet, "Aromire Street", Some("First Drop-off (Darrell Stewart)")) ],
      15, 5.3)
  }

  function InitialState(): RideState {
    RideState(currentEvent := IDLE, isSimulating := false)
  }

  // Fixed progress records installed on entering a phase.
  const GetToPickupProgress: RideProgress := RideProgress(1, 4, 0.3, 240, 2.1)
  const PickupConfirmationProgress: RideProgress := RideProgress(2, 4, 0.5, 285, 0.0)
  const HeadingToDropOffProgress: RideProgress := RideProgress(3, 4, 0.75, 480, 3.2)
  const CompletedProgress: RideProgress := RideProgress(4, 4, 1.0, 0, 0.0)

  const CompletedEarnings: RideEarnings :=
    RideEarnings(6500.0, 500.0, 500.0, carbonEmissionAvoided := 1.2)

  // ---------------------------------------------------------------------------
  // Element-wise passenger status rewrites (the `map` calls of the engine)

  /** Rewrites each passenger's status by `rule`, keeping every other field, the count and the order. */
  function Restatus(ps: seq<Passenger>, rule: Passenger -> PassengerStatus): (r: seq<Passenger>)
    ensures |r| == |ps|
    ensures forall i :: 0 <= i < |ps| ==> r[i] == ps[i].(status := rule(ps[i]))
  {
    if ps == [] then [] else [ps[0].(status := rule(ps[0]))] + Restatus(ps[1..], rule)
  }

  function PickUpRule(p: Passenger): PassengerStatus {
    if p.status == ACCEPTED then PICKED_UP else p.status
  }

  function NoShowRule(p: Passenger, passengerId: string): PassengerStatus {
    if p.id == passengerId then NO_SHOW else PickUpRule(p)
  }

  function AcceptAll(ps: seq<Passenger>): seq<Passenger> {
    Restatus(ps, _ => ACCEPTED)
  }

  function PickUpAccepted(ps: seq<Passenger>): seq<Passenger> {
    Restatus(ps, PickUpRule)
  }

  function MarkNoShow(ps: seq<Passenger>, passengerId: string): seq<Passenger> {
    Restatus(ps, p => NoShowRule(p, passengerId))
  }

  function DropOffAll(ps: seq<Passenger>): seq<Passenger> {
    Restatus(ps, _ => DROPPED_OFF)
  }

  /** The vehicle after a no-show frees a seat: one more seat, capped at `MaxSeats`; no vehicle stays none. */
  function FreeSeat(v: Option<Vehicle>): Option<Vehicle> {
    match v
    case None => None
    case Some(x) => Some(x.(availableSeats := if x.availableSeats + 1 <= MaxSeats then x.availableSeats + 1 else MaxSeats))
  }

  // ---------------------------------------------------------------------------
  // The commands, as whole-snapshot replacements

  function Offer(s: RideState): RideState {
    s.(currentEvent := OFFER_RIDE_AVAILABLE, passengers := SamplePassengers(), route := Some(SampleRoute()),
       driver := Some(SampleDriver()), vehicle := Some(SampleVehicle()), isSimulating := true)
  }

  function Accept(s: RideState): RideState {
    s.(currentEvent := PASSENGERS_ACCEPTED, passengers := AcceptAll(s.passengers))
  }

  function GetToPickup(s: RideState): RideState {
    s.(currentEvent := GET_TO_PICKUP, progress := GetToPickupProgress)
  }

  function PickupConfirmation(s: RideState): RideState {
    s.(currentEvent := PICKUP_CONFIRMATION, progress := PickupConfirmationProgress)
  }

  /** The shared tail of confirm-pickup and no-show. */
  function ProceedToHeadingToDropOff(s: RideState, ps: seq<Passenger>, v: Option<Vehicle>): RideState {
    s.(currentEvent := HEADING_TO_DROPOFF, passengers := ps, vehicle := v, progress := HeadingToDropOffProgress)
  }

  function HeadingToDropoff(s: RideState): RideState {
    ProceedToHeadingToDropOff(s, PickUpAccepted(s.passengers), s.vehicle)
  }

  function NoShow(s: RideState, passengerId: string): RideState {
    ProceedToHeadingToDropOff(s, MarkNoShow(s.passengers, passengerId), FreeSeat(s.vehicle))
  }

  function Complete(s: RideState): RideState {
    s.(currentEvent := TRIP_COMPLETED, passengers := DropOffAll(s.passengers),
       progress := CompletedProgress, earnings := Some(CompletedEarnings))
  }

  function End(s: RideState): RideState {
    s.(currentEvent := TRIP_ENDED)
  }

  // ---------------------------------------------------------------------------
  // Properties of the commands

  predicate AllHaveStatus(ps: seq<Passenger>, st: PassengerStatus) {
    forall i :: 0 <= i < |ps| ==> ps[i].status == st
  }

  /** `a` is `b` with at most the statuses changed: same count, order, ids and other fields. */
  predicate SameButStatus(a: seq<Passenger>, b: seq<Passenger>) {
    |a| == |b| && forall i :: 0 <= i < |a| ==> a[i] == b[i].(status := a[i].status)
  }

  lemma OfferInstallsSampleRide(s: RideState)
    ensures var t := Offer(s);
      t.currentEvent == OFFER_RIDE_AVAILABLE && t.isSimulating &&
      |t.passengers| == 2 && t.passengers[0].id == "passenger_001" && t.passengers[1].id == "passenger_002" &&
      AllHaveStatus(t.passengers, ACCEPTED) &&
      t.driver == Some(SampleDriver()) && t.route == Some(SampleRoute()) &&
      t.vehicle.Some? && t.vehicle.value.availableSeats == 2 &&
      t.progress == s.progress && t.earnings == s.earnings
  {
  }

  /** Accepting makes every passenger ACCEPTED, whatever status it had, and keeps count, order and ids. */
  lemma AcceptSetsAllAccepted(s: RideState)
    ensures Accept(s).currentEvent == PASSENGERS_ACCEPTED
    ensures SameButStatus(Accept(s).passengers, s.passengers)
    ensures AllHaveStatus(Accept(s).passengers, ACCEPTED)
    ensures Accept(s) == s.(currentEvent := PASSENGERS_ACCEPTED, passengers := Accept(s).passengers)
  {
  }

  /** Confirming pickup turns exactly the ACCEPTED passengers into PICKED_UP and keeps the vehicle. */
  lemma HeadingToDropoffPicksUpAccepted(s: RideState)
    ensures var t := HeadingToDropoff(s);
      t.currentEvent == HEADING_TO_DROPOFF && t.progress == HeadingToDropOffProgress &&
      t.vehicle == s.vehicle && SameButStatus(t.passengers, s.passengers) &&
      (forall i :: 0 <= i < |s.passengers| ==>
        (t.passengers[i].status == PICKED_UP <==> s.passengers[i].status in {ACCEPTED, PICKED_UP})) &&
      (forall i :: 0 <= i < |s.passengers| && s.passengers[i].status != ACCEPTED ==>
        t.passengers[i] == s.passengers[i])
  {
  }

  /**
   * A no-show marks the passenger with that id NO_SHOW and picks up the other ACCEPTED ones; it frees a seat
   * (capped) and moves to HEADING_TO_DROPOFF even when no passenger has that id.
   */
  lemma NoShowEffect(s: RideState, passengerId: string)
    ensures var t := NoShow(s, passengerId);
      t.currentEvent == HEADING_TO_DROPOFF && t.progress == HeadingToDropOffProgress &&
      SameButStatus(t.passengers, s.passengers) &&
      (forall i :: 0 <= i < |s.passengers| ==>
        t.passengers[i].status ==
          if s.passengers[i].id == passengerId then NO_SHOW
          else if s.passengers[i].status == ACCEPTED then PICKED_UP
          else s.passengers[i].status) &&
      (s.vehicle.None? ==> t.vehicle.None?) &&
      (s.vehicle.Some? ==>
         t.vehicle.Some? &&
         t.vehicle.value == s.vehicle.value.(availableSeats := t.vehicle.value.availableSeats) &&
         t.vehicle.value.availableSeats <= MaxSeats &&
         (s.vehicle.value.availableSeats < MaxSeats ==>
            t.vehicle.value.availableSeats == s.vehicle.value.availableSeats + 1) &&
         (s.vehicle.value.availableSeats >= MaxSeats ==> t.vehicle.value.availableSeats == MaxSeats))
  {
  }

  /** With an id nobody has, a no-show rewrites passengers exactly as a confirmed pickup does. */
  lemma UnknownNoShowIsPickup(s: RideState, passengerId: string)
    requires forall i :: 0 <= i < |s.passengers| ==> s.passengers[i].id != passengerId
    ensures NoShow(s, passengerId).passengers == HeadingToDropoff(s).passengers
    ensures NoShow(s, passengerId).currentEvent == HEADING_TO_DROPOFF
  {
    var a, b := MarkNoShow(s.passengers, passengerId), PickUpAccepted(s.passengers);
    assert |a| == |b|;
    forall i | 0 <= i < |a| ensures a[i] == b[i] {
      assert NoShowRule(s.passengers[i], passengerId) == PickUpRule(s.passengers[i]);
    }
  }

  /** Completing drops every passenger off, NO_SHOW ones included, and installs the fixed earnings. */
  lemma CompleteDropsEveryone(s: RideState)
    ensures var t := Complete(s);
      t.currentEvent == TRIP_COMPLETED && SameButStatus(t.passengers, s.passengers) &&
      AllHaveStatus(t.passengers, DROPPED_OFF) &&
      t.progress.currentStep == 4 && t.progress.totalSteps == 4 && t.progress.timeRemaining == 0 &&
      t.earnings.Some? && t.earnings.value.Total() == 6500.0
  {
  }
}
