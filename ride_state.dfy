// The ride data model: one immutable snapshot of a ride and the values it is
// built from. Kotlin `Float`/`Double` fields are exact `real`s here; map
// coordinates are an opaque pair of reals.

module RideModel {

  datatype Option<+T> = None | Some(value: T)

  /** The eight lifecycle phases of a ride, in declaration order. */
  datatype RideEvent =
    | IDLE
    | OFFER_RIDE_AVAILABLE
    | PASSENGERS_ACCEPTED
    | GET_TO_PICKUP
    | PICKUP_CONFIRMATION
    | HEADING_TO_DROPOFF
    | TRIP_COMPLETED
    | TRIP_ENDED

  datatype PassengerStatus = PENDING | ACCEPTED | PICKED_UP | DROPPED_OFF | NO_SHOW

  datatype LatLng = LatLng(latitude: real, longitude: real)

  datatype Location = Location(coordinates: LatLng, address: string, name: Option<string> := None)

  datatype Driver = Driver(id: string, name: string, rating: real, vehicleId: string, currentLocation: LatLng)

  datatype Passenger = Passenger(
    id: string,
    name: string,
    initials: string,
    rating: real,
    pickupLocation: Location,
    dropOffLocation: Location,
    status: PassengerStatus := ACCEPTED)

  datatype Route = Route(
    startLocation: Location,
    endLocation: Location,
    waypoints: seq<Location> := [],
    estimatedDuration: int,   // minutes
    estimatedDistance: real)  // kilometres

  datatype Vehicle = Vehicle(
    id: string,
    vehicleType: string,
    licensePlate: string,
    currentLocation: LatLng,
    availableSeats: int := 4)

  datatype RideProgress = RideProgress(
    currentStep: int := 0,
    totalSteps: int := 0,
    progressPercentage: real := 0.0,
    timeRemaining: int := 0,     // seconds
    distanceRemaining: real := 0.0)

  datatype RideEarnings = RideEarnings(
    baseAmount: real,
    bonus: real := 0.0,
    commission: real := 0.0,
    currency: string := "₦",
    carbonEmissionAvoided: real := 0.0)
  {
    /** What the driver takes home; a commission above base plus bonus gives a negative total. */
    function Total(): real {
      baseAmount + bonus - commission
    }
  }

  datatype RideState = RideState(
    currentEvent: RideEvent := IDLE,
    driver: Option<Driver> := None,
    passengers: seq<Passenger> := [],
    route: Option<Route> := None,
    vehicle: Option<Vehicle> := None,
    progress: RideProgress := RideProgress(),
    earnings: Option<RideEarnings> := None,
    isSimulating: bool := false)

  /** Position of a status along the forward path PENDING, ACCEPTED, PICKED_UP or NO_SHOW, DROPPED_OFF. */
  function StatusRank(s: PassengerStatus): nat {
    match s
    case PENDING => 0
    case ACCEPTED => 1
    case PICKED_UP => 2
    case NO_SHOW => 2
    case DROPPED_OFF => 3
  }

  /**
   * One edge of the passenger lifecycle PENDING -> ACCEPTED -> (PICKED_UP or NO_SHOW) -> DROPPED_OFF,
   * or no change.
   */
  predicate StatusStep(a: PassengerStatus, b: PassengerStatus) {
    a == b ||
    (a == PENDING && b == ACCEPTED) ||
    (a == ACCEPTED && (b == PICKED_UP || b == NO_SHOW)) ||
    ((a == PICKED_UP || a == NO_SHOW) && b == DROPPED_OFF)
  }

  /** The values a snapshot and its parts take when the constructor is given no arguments. */
  lemma Defaults(loc: Location, at: LatLng)
    ensures RideState() == RideState(IDLE, None, [], None, None, RideProgress(), None, false)
    ensures RideProgress() == RideProgress(0, 0, 0.0, 0, 0.0)
    ensures Passenger("p", "n", "PN", 4.5, loc, loc).status == ACCEPTED
    ensures Vehicle("v", "Sedan", "ABC", at).availableSeats == 4
    ensures RideEarnings(1000.0).bonus == 0.0 && RideEarnings(1000.0).commission == 0.0
    ensures RideEarnings(1000.0).currency == "₦" && RideEarnings(1000.0).carbonEmissionAvoided == 0.0
  {
  }

  /** The total is base plus bonus minus commission, whichever of the optional parts is given. */
  lemma TotalExamples()
    ensures RideEarnings(1000.0, 200.0, 150.0).Total() == 1050.0
    ensures RideEarnings(1000.0, commission := 150.0).Total() == 850.0
    ensures RideEarnings(1000.0, bonus := 200.0).Total() == 1200.0
    ensures RideEarnings(1000.0, commission := 1200.0).Total() == -200.0
  {
  }
}
