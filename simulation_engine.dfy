// The simulation engine: the single owner of the current ride snapshot. Every
// command replaces the whole snapshot, whatever the current event is.

module SimulationEngine {
  import opened RideModel
  import opened RideTransitions

  class RideSimulationEngine {
    /** The current snapshot; observers read it, only the commands below write it. */
    var state: RideState

    constructor ()
      ensures state == InitialState()
    {
      state := InitialState();
    }

    method StartRideOffer()
      modifies this
      ensures state == Offer(old(state))
    {
      state := Offer(state);
    }

    method AcceptPassengers()
      modifies this
      ensures state == Accept(old(state))
    {
      state := Accept(state);
    }

    method StartGetToPickup()
      modifies this
      ensures state == GetToPickup(old(state))
    {
      state := GetToPickup(state);
    }

    method StartPickupConfirmation()
      modifies this
      ensures state == PickupConfirmation(old(state))
    {
      state := PickupConfirmation(state);
    }

    /** Confirmed pickup: every ACCEPTED passenger is now PICKED_UP. */
    method StartHeadingToDropoff()
      modifies this
      ensures state == HeadingToDropoff(old(state))
    {
      var updatedPassengers := PickUpAccepted(state.passengers);
      ProceedToHeadingToDropOffWith(updatedPassengers, state.vehicle);
    }

    method CompleteTrip()
      modifies this
      ensures state == Complete(old(state))
    {
      state := Complete(state);
    }

    method EndTrip()
      modifies this
      ensures state == End(old(state))
    {
      state := End(state);
    }

    method ResetSimulation()
      modifies this
      ensures state == InitialState()
    {
      state := InitialState();
    }

    /** A passenger did not show: mark them, pick up the other ACCEPTED ones, free a seat. */
    method HandlePassengerNoShow(passengerId: string)
      modifies this
      ensures state == NoShow(old(state), passengerId)
    {
      var currentState := state;
      var updatedPassengers := MarkNoShow(currentState.passengers, passengerId);
      var updatedVehicle := FreeSeat(currentState.vehicle);
      ProceedToHeadingToDropOffWith(updatedPassengers, updatedVehicle);
    }

    method ProceedToHeadingToDropOffWith(passengers: seq<Passenger>, vehicle: Option<Vehicle>)
      modifies this
      ensures state == ProceedToHeadingToDropOff(old(state), passengers, vehicle)
    {
      state := ProceedToHeadingToDropOff(state, passengers, vehicle);
    }
  }
}
