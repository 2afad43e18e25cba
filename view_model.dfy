// The view model's dispatch over the engine: the event-to-command table, the
// fixed command scripts, and the lifecycle invariant that dispatch keeps.
// Each coroutine the view model launches is modelled as its engine calls run
// in order; the delays between them are not modelled.

module ViewModel {
  import opened RideModel
  import opened RideTransitions
  import opened SimulationEngine

  /** The snapshot after one `progressToNextEvent`, chosen by the event read when it is called. */
  function Next(s: RideState): RideState {
    match s.currentEvent
    case IDLE => Offer(s)
    case OFFER_RIDE_AVAILABLE => Accept(s)
    case PASSENGERS_ACCEPTED => GetToPickup(s)
    case GET_TO_PICKUP => PickupConfirmation(s)
    case PICKUP_CONFIRMATION => HeadingToDropoff(s)
    case HEADING_TO_DROPOFF => End(Complete(s))
    case TRIP_COMPLETED => End(s)
    case TRIP_ENDED => InitialState()
  }

  /** `n` successive `progressToNextEvent` calls. */
  function NextN(s: RideState, n: nat): RideState
    decreases n
  {
    if n == 0 then s else NextN(Next(s), n - 1)
  }

  /** The full simulation: offer, accept, get to pickup, confirm, head to drop-off, complete, end. */
  function SimulationScript(s: RideState): RideState {
    End(Complete(HeadingToDropoff(PickupConfirmation(GetToPickup(Accept(Offer(s)))))))
  }

  /**
   * The lifecycle invariant of snapshots reached by dispatch: what the passengers' statuses, the
   * earnings, the driver, route and vehicle and the simulating flag are in each phase.
   */
  predicate Coherent(s: RideState) {
    (s.isSimulating <==> s.currentEvent != IDLE) &&
    (s.currentEvent == IDLE ==> s.passengers == [] && s.driver.None? && s.route.None? && s.vehicle.None?) &&
    (s.currentEvent != IDLE ==>
       s.driver.Some? && s.route.Some? && s.vehicle.Some? &&
       2 <= s.vehicle.value.availableSeats <= MaxSeats) &&
    match s.currentEvent
    case IDLE => s.earnings.None?
    case HEADING_TO_DROPOFF =>
      s.earnings.None? && forall i :: 0 <= i < |s.passengers| ==> s.passengers[i].status in {PICKED_UP, NO_SHOW}
    case TRIP_COMPLETED => s.earnings.Some? && AllHaveStatus(s.passengers, DROPPED_OFF)
    case TRIP_ENDED => s.earnings.Some? && AllHaveStatus(s.passengers, DROPPED_OFF)
    case _ => s.earnings.None? && AllHaveStatus(s.passengers, ACCEPTED)
  }

  lemma InitialStateCoherent()
    ensures Coherent(InitialState())
    ensures InitialState() == RideState()
  {
  }

  /** In a coherent snapshot earnings exist exactly in the two final phases. */
  lemma CoherentEarnings(s: RideState)
    requires Coherent(s)
    ensures s.earnings.Some? <==> s.currentEvent in {TRIP_COMPLETED, TRIP_ENDED}
  {
  }

  /**
   * Dispatch keeps the lifecycle invariant. Between the offer and the end of the trip it never touches
   * the driver, the route or the vehicle (so the seat count changes only through a reported no-show).
   */
  lemma NextPreservesCoherent(s: RideState)
    requires Coherent(s)
    ensures Coherent(Next(s))
    ensures s.currentEvent !in {IDLE, TRIP_ENDED} ==>
      Next(s).driver == s.driver && Next(s).route == s.route && Next(s).vehicle == s.vehicle
  {
    match s.currentEvent
    case IDLE =>
    case OFFER_RIDE_AVAILABLE => AcceptSetsAllAccepted(s);
    case PASSENGERS_ACCEPTED =>
    case GET_TO_PICKUP =>
    case PICKUP_CONFIRMATION => ConfirmPickupPreservesCoherent(s);
    case HEADING_TO_DROPOFF => CompleteDropsEveryone(s);
    case TRIP_COMPLETED =>
    case TRIP_ENDED =>
  }

  /** Confirming pickup from PICKUP_CONFIRMATION keeps the invariant and moves each passenger one lifecycle edge at most. */
  lemma ConfirmPickupPreservesCoherent(s: RideState)
    requires Coherent(s) && s.currentEvent == PICKUP_CONFIRMATION
    ensures Coherent(HeadingToDropoff(s))
    ensures SameButStatus(HeadingToDropoff(s).passengers, s.passengers)
    ensures forall i :: 0 <= i < |s.passengers| ==>
      StatusStep(s.passengers[i].status, HeadingToDropoff(s).passengers[i].status)
  {
    HeadingToDropoffPicksUpAccepted(s);
  }

  /** A no-show for any id from PICKUP_CONFIRMATION keeps the invariant and moves each passenger one lifecycle edge at most. */
  lemma NoShowPreservesCoherent(s: RideState, passengerId: string)
    requires Coherent(s) && s.currentEvent == PICKUP_CONFIRMATION
    ensures Coherent(NoShow(s, passengerId))
    ensures SameButStatus(NoShow(s, passengerId).passengers, s.passengers)
    ensures forall i :: 0 <= i < |s.passengers| ==>
      StatusStep(s.passengers[i].status, NoShow(s, passengerId).passengers[i].status)
  {
    NoShowEffect(s, passengerId);
  }

  /**
   * Along dispatch no passenger's status moves backwards, except on the two steps that replace the whole
   * passenger list (offer from IDLE, reset from TRIP_ENDED).
   */
  lemma NextNeverRegresses(s: RideState, i: nat)
    requires Coherent(s) && s.currentEvent !in {IDLE, TRIP_ENDED}
    requires i < |s.passengers|
    ensures SameButStatus(Next(s).passengers, s.passengers)
    ensures StatusRank(s.passengers[i].status) <= StatusRank(Next(s).passengers[i].status)
    ensures StatusStep(s.passengers[i].status, Next(s).passengers[i].status)
  {
    match s.currentEvent
    case OFFER_RIDE_AVAILABLE => AcceptSetsAllAccepted(s);
    case PICKUP_CONFIRMATION => HeadingToDropoffPicksUpAccepted(s);
    case HEADING_TO_DROPOFF => CompleteDropsEveryone(s);
    case _ =>
  }

  /** Dispatch from HEADING_TO_DROPOFF goes straight on to TRIP_ENDED, so no dispatch lands on TRIP_COMPLETED. */
  lemma NextSkipsTripCompleted(s: RideState)
    ensures Next(s).currentEvent != TRIP_COMPLETED
    ensures s.currentEvent == HEADING_TO_DROPOFF ==>
      Next(s).currentEvent == TRIP_ENDED && Next(s).earnings == Some(CompletedEarnings)
  {
  }

  /** Seven dispatches from any IDLE snapshot pass through every phase but TRIP_COMPLETED and come back to the initial state. */
  lemma SevenStepCycle(s: RideState)
    requires s.currentEvent == IDLE
    ensures NextN(s, 1).currentEvent == OFFER_RIDE_AVAILABLE
    ensures NextN(s, 2).currentEvent == PASSENGERS_ACCEPTED
    ensures NextN(s, 3).currentEvent == GET_TO_PICKUP
    ensures NextN(s, 4).currentEvent == PICKUP_CONFIRMATION
    ensures NextN(s, 5).currentEvent == HEADING_TO_DROPOFF
    ensures NextN(s, 6).currentEvent == TRIP_ENDED
    ensures NextN(s, 7) == InitialState()
  {
  }

  /** Six dispatches from IDLE issue exactly the simulation script's commands. */
  lemma ScriptMatchesDispatch(s: RideState)
    requires s.currentEvent == IDLE
    ensures NextN(s, 6) == SimulationScript(s)
  {
  }

  /** The full simulation ends at TRIP_ENDED with the fixed earnings and both sample passengers dropped off. */
  lemma SimulationOutcome(s: RideState)
    ensures var t := SimulationScript(s);
      t.currentEvent == TRIP_ENDED && t.isSimulating &&
      t.earnings == Some(CompletedEarnings) && t.earnings.value.Total() == 6500.0 &&
      t.progress == CompletedProgress && t.vehicle == Some(SampleVehicle()) &&
      SameButStatus(t.passengers, SamplePassengers()) && AllHaveStatus(t.passengers, DROPPED_OFF) &&
      Coherent(t)
  {
    OfferInstallsSampleRide(s);
    var a := Accept(Offer(s));
    AcceptSetsAllAccepted(Offer(s));
    HeadingToDropoffPicksUpAccepted(PickupConfirmation(GetToPickup(a)));
    CompleteDropsEveryone(HeadingToDropoff(PickupConfirmation(GetToPickup(a))));
  }

  /** Every field the simulation leaves behind is written by one of its commands: the prior snapshot is irrelevant. */
  lemma SimulationForgetsPriorState(s1: RideState, s2: RideState)
    ensures SimulationScript(s1) == SimulationScript(s2)
  {
    assert Accept(Offer(s1)).passengers == Accept(Offer(s2)).passengers;
  }

  /** The engine's commands are unguarded: out of order they leave the lifecycle invariant behind. */
  lemma UnguardedCommandsLeaveLifecycle()
    ensures var ended := SimulationScript(InitialState());
      Coherent(ended) &&
      !Coherent(Offer(ended)) && Offer(ended).earnings.Some? &&
      Accept(ended).passengers[0].status == ACCEPTED && ended.passengers[0].status == DROPPED_OFF
  {
    SimulationOutcome(InitialState());
    var ended := SimulationScript(InitialState());
    AcceptSetsAllAccepted(ended);
  }

  class RideViewModel {
    const engine: RideSimulationEngine

    constructor (engine: RideSimulationEngine)
      ensures this.engine == engine
    {
      this.engine := engine;
    }

    /** The state the view model exposes is the engine's own snapshot. */
    function RideStateValue(): RideState
      reads engine
    {
      engine.state
    }

    method StartRideSimulation()
      modifies engine
      ensures engine.state == SimulationScript(old(engine.state))
    {
      engine.StartRideOffer();
      engine.AcceptPassengers();
      engine.StartGetToPickup();
      engine.StartPickupConfirmation();
      engine.StartHeadingToDropoff();
      engine.CompleteTrip();
      engine.EndTrip();
    }

    method StartRideOffer()
      modifies engine
      ensures engine.state == Offer(old(engine.state))
    {
      engine.StartRideOffer();
    }

    method ProgressToNextEvent()
      modifies engine
      ensures engine.state == Next(old(engine.state))
    {
      var currentEvent := RideStateValue().currentEvent;
      match currentEvent
      case IDLE => engine.StartRideOffer();
      case OFFER_RIDE_AVAILABLE => engine.AcceptPassengers();
      case PASSENGERS_ACCEPTED => engine.StartGetToPickup();
      case GET_TO_PICKUP => engine.StartPickupConfirmation();
      case PICKUP_CONFIRMATION => engine.StartHeadingToDropoff();
      case HEADING_TO_DROPOFF =>
        engine.CompleteTrip();
        engine.EndTrip();
      case TRIP_COMPLETED => engine.EndTrip();
      case TRIP_ENDED => engine.ResetSimulation();
    }

    method ConfirmPickup()
      modifies engine
      ensures engine.state == HeadingToDropoff(old(engine.state))
    {
      engine.StartHeadingToDropoff();
    }

    method HandlePassengerNoShow(passengerId: string)
      modifies engine
      ensures engine.state == NoShow(old(engine.state), passengerId)
    {
      engine.HandlePassengerNoShow(passengerId);
    }

    method ResetSimulation()
      modifies engine
      ensures engine.state == InitialState()
    {
      engine.ResetSimulation();
    }

    /** A reset followed by the full simulation: the result does not depend on the state before. */
    method StartNewTrip()
      modifies engine
      ensures engine.state == SimulationScript(InitialState())
      ensures engine.state.currentEvent == TRIP_ENDED && engine.state.earnings == Some(CompletedEarnings)
    {
      engine.ResetSimulation();
      StartRideSimulation();
      SimulationOutcome(InitialState());
    }
  }
}
