# LincRide ride lifecycle, modelled in Dafny

This project models the core of the LincRide driver app: the ride-lifecycle state machine and the small
rules and loops around it.

- **Data model** (`ride_state.dfy`, module `RideModel`). `RideState` is the immutable snapshot. It holds an
  8-value `RideEvent`, passengers with a 5-value `PassengerStatus`, an optional vehicle with a seat count,
  a `RideProgress` record and optional `RideEarnings`. The earnings' `Total()` is base + bonus − commission.
  Kotlin's default constructor arguments are kept as Dafny defaults.
- **Command effects** (`ride_transitions.dfy`, module `RideTransitions`). Each engine command is a pure
  function from snapshot to snapshot. None of them looks at `currentEvent`. The functions cover:
  - offer, accept, get-to-pickup, pickup-confirmation, heading-to-drop-off, no-show, complete, end;
  - the element-wise passenger status rewrites (`Restatus` with one rule per command);
  - the capped seat increment (`FreeSeat`);
  - the fixed progress and earnings constants and the sample driver, vehicle, passengers and route.
- **Simulation engine** (`simulation_engine.dfy`). `RideSimulationEngine` is a class with one field,
  `state`, and one method per command. Each method replaces the whole snapshot and is proved equal to the
  matching pure function.
- **View model** (`view_model.dfy`). `Next` is the `progressToNextEvent` table, and `SimulationScript`
  is the seven-command simulation script. `Coherent` is the lifecycle invariant that dispatch keeps. The
  `RideViewModel` class holds the engine itself, so its state is the engine's state. Every method runs its
  engine calls in order.
- **Route polylines** (`route_polylines.dfy`). This file covers:
  - multi-stop segment construction (a loop that appends segments);
  - the distance-marker positions;
  - the visible prefix of an animated polyline;
  - per-segment progress in a multi-segment route.
- **Pickup confirmation** (`pickup_confirmation.dfy`). This file covers the waiting countdown loop, its
  `mm:ss` text with a parser that reads it back, and the swipe area (a class whose drag offset is updated
  in place).
- **Get to pickup / heading to drop-off** (`get_to_pickup.dfy`, `heading_to_dropoff.dfy`). These cover:
  - the two timed progression loops and the completion callback they fire once;
  - the ETA label;
  - the sample route stops with their completed/current flags;
  - the next-stop mapping.

Kotlin `Float` and `Double` are modelled as exact `real`s, and map coordinates as a pair of reals.
Colours become an enum and strings are `string`. Kotlin's `toInt()` truncates toward zero (`Truncate`).
On the non-negative values of the ETA label, that is the floor.

### What the code does not guard

The model follows the code in each of these cases:

- The engine guards nothing. Every command takes effect from every event, and no command is ever
  refused as an illegal transition.
- A no-show with an id that no passenger has still moves to HEADING_TO_DROPOFF and frees a seat
  (`NoShowEffect`). It then rewrites the passengers exactly as a confirmed pickup does
  (`UnknownNoShowIsPickup`).
- Accepting turns every passenger ACCEPTED, whatever their status. This moves DROPPED_OFF passengers
  backwards (`AcceptSetsAllAccepted`).
- Completion turns NO_SHOW passengers into DROPPED_OFF (`CompleteDropsEveryone`). That is the normal
  course after a no-show is reported. `StatusRank` ranks NO_SHOW with PICKED_UP, below DROPPED_OFF, so this
  move counts as forward.
- Statuses move only along lifecycle edges (`StatusStep`), and earnings exist exactly in TRIP_COMPLETED and TRIP_ENDED.
  Both facts hold only along the dispatch order (`Coherent`, `NextPreservesCoherent`,
  `NextNeverRegresses`). `UnguardedCommandsLeaveLifecycle` shows out-of-order commands breaking both.
- Dispatch from HEADING_TO_DROPOFF runs completeTrip and then endTrip. It therefore lands on TRIP_ENDED,
  never on TRIP_COMPLETED.
- The code cancels nothing itself. A progression loop's only stop condition is progress reaching 1.0.

## Model

| member | source | states |
|---|---|---|
| `RideModel.Defaults` | app/src/main/java/com/ben/lincride/domain/model/RideState.kt:5-88 | A default snapshot is IDLE with no passengers, driver, route, vehicle or earnings and is not simulating; a default progress is all zeros; a passenger defaults to ACCEPTED; a vehicle defaults to 4 seats; bonus, commission and carbon default to 0 and the currency to ₦ |
| `RideModel.TotalExamples` | app/src/main/java/com/ben/lincride/domain/model/RideState.kt:83-91 | total = base + bonus − commission with either optional part omitted: 1050, 850, 1200, and −200 when commission exceeds base |
| `RideTransitions.Restatus` | app/src/main/java/com/ben/lincride/domain/repository/RideSimulationEngine.kt:53-55 | A status rewrite keeps the passenger count and order, and every field of each passenger but its status |
| `RideTransitions.OfferInstallsSampleRide` | app/src/main/java/com/ben/lincride/domain/repository/RideSimulationEngine.kt:27-48 | Offer gives OFFER_RIDE_AVAILABLE, passengers passenger_001 and passenger_002 (both ACCEPTED), the sample driver and route, a vehicle with 2 seats, and isSimulating; progress and earnings are kept |
| `RideTransitions.AcceptSetsAllAccepted` | app/src/main/java/com/ben/lincride/domain/repository/RideSimulationEngine.kt:50-57 | Accept makes every passenger ACCEPTED from any status, keeps count, order and other fields, and changes nothing else but the event |
| `RideTransitions.HeadingToDropoffPicksUpAccepted` | app/src/main/java/com/ben/lincride/domain/repository/RideSimulationEngine.kt:88-98 | Confirmed pickup: a passenger ends PICKED_UP iff it was ACCEPTED or PICKED_UP, non-ACCEPTED ones are untouched, step 3/4 progress, the vehicle is kept |
| `RideTransitions.NoShowEffect` | app/src/main/java/com/ben/lincride/domain/repository/RideSimulationEngine.kt:145-177 | The matching id becomes NO_SHOW, other ACCEPTED become PICKED_UP, others unchanged; seats + 1 capped at 4; no vehicle stays none; the event is HEADING_TO_DROPOFF in every case |
| `RideTransitions.UnknownNoShowIsPickup` | app/src/main/java/com/ben/lincride/domain/repository/RideSimulationEngine.kt:147-154 | With an id no passenger has, the no-show rewrites passengers exactly as confirmed pickup does |
| `RideTransitions.CompleteDropsEveryone` | app/src/main/java/com/ben/lincride/domain/repository/RideSimulationEngine.kt:103-123 | Complete makes every passenger DROPPED_OFF (NO_SHOW included), sets progress 4/4 with 0 s and earnings whose total is 6500 |
| `SimulationEngine.RideSimulationEngine.constructor` | app/src/main/java/com/ben/lincride/domain/repository/RideSimulationEngine.kt:19 | The engine starts in the initial IDLE snapshot |
| `SimulationEngine.RideSimulationEngine.StartRideOffer` | app/src/main/java/com/ben/lincride/domain/repository/RideSimulationEngine.kt:27-48 | The new snapshot is the offer applied to the old one, whatever its event |
| `SimulationEngine.RideSimulationEngine.AcceptPassengers` | app/src/main/java/com/ben/lincride/domain/repository/RideSimulationEngine.kt:50-57 | The new snapshot is the accept applied to the old one |
| `SimulationEngine.RideSimulationEngine.StartGetToPickup` | app/src/main/java/com/ben/lincride/domain/repository/RideSimulationEngine.kt:59-70 | Only event and progress change: GET_TO_PICKUP, step 1/4, 240 s |
| `SimulationEngine.RideSimulationEngine.StartPickupConfirmation` | app/src/main/java/com/ben/lincride/domain/repository/RideSimulationEngine.kt:72-83 | Only event and progress change: PICKUP_CONFIRMATION, step 2/4, 285 s |
| `SimulationEngine.RideSimulationEngine.StartHeadingToDropoff` | app/src/main/java/com/ben/lincride/domain/repository/RideSimulationEngine.kt:88-98 | The new snapshot is confirmed pickup applied to the old one |
| `SimulationEngine.RideSimulationEngine.CompleteTrip` | app/src/main/java/com/ben/lincride/domain/repository/RideSimulationEngine.kt:103-123 | The new snapshot is completion applied to the old one |
| `SimulationEngine.RideSimulationEngine.EndTrip` | app/src/main/java/com/ben/lincride/domain/repository/RideSimulationEngine.kt:128-132 | Only the event changes, to TRIP_ENDED |
| `SimulationEngine.RideSimulationEngine.ResetSimulation` | app/src/main/java/com/ben/lincride/domain/repository/RideSimulationEngine.kt:137-139 | The new snapshot is exactly the initial IDLE, non-simulating one |
| `SimulationEngine.RideSimulationEngine.HandlePassengerNoShow` | app/src/main/java/com/ben/lincride/domain/repository/RideSimulationEngine.kt:145-162 | The new snapshot is the no-show for that id applied to the old one, with no guard on the event or the id |
| `SimulationEngine.RideSimulationEngine.ProceedToHeadingToDropOffWith` | app/src/main/java/com/ben/lincride/domain/repository/RideSimulationEngine.kt:164-177 | Installs the given passengers and vehicle, HEADING_TO_DROPOFF and step 3/4 with 480 s; nothing else changes |
| `ViewModel.InitialStateCoherent` | app/src/main/java/com/ben/lincride/domain/repository/RideSimulationEngine.kt:179-184 | The initial snapshot is the default one and satisfies the lifecycle invariant |
| `ViewModel.CoherentEarnings` | app/src/main/java/com/ben/lincride/presentation/viewmodel/RideViewModel.kt:97-132 | In a snapshot reached by dispatch, earnings exist iff the event is TRIP_COMPLETED or TRIP_ENDED |
| `ViewModel.NextPreservesCoherent` | app/src/main/java/com/ben/lincride/presentation/viewmodel/RideViewModel.kt:97-132 | Every dispatch step keeps the lifecycle invariant: statuses and earnings per phase, simulating iff not IDLE, nothing installed in IDLE, and from the offer on a driver, a route and a vehicle with 2 to 4 seats. Between the offer and TRIP_ENDED, dispatch leaves the driver, route and vehicle unchanged |
| `ViewModel.ConfirmPickupPreservesCoherent` | app/src/main/java/com/ben/lincride/presentation/viewmodel/RideViewModel.kt:140-144 | Confirming pickup from PICKUP_CONFIRMATION keeps the lifecycle invariant and the passengers' identities and order, and moves each status along at most one lifecycle edge |
| `ViewModel.NoShowPreservesCoherent` | app/src/main/java/com/ben/lincride/presentation/viewmodel/RideViewModel.kt:149-153 | A no-show for any id from PICKUP_CONFIRMATION keeps the lifecycle invariant and the passengers' identities and order, and moves each status along at most one lifecycle edge |
| `ViewModel.NextNeverRegresses` | app/src/main/java/com/ben/lincride/presentation/viewmodel/RideViewModel.kt:97-132 | Along dispatch, each passenger either keeps its status or takes one edge of PENDING → ACCEPTED → PICKED_UP or NO_SHOW → DROPPED_OFF, so its rank never drops. The list keeps its order and ids, except where offer or reset replace it |
| `ViewModel.NextSkipsTripCompleted` | app/src/main/java/com/ben/lincride/presentation/viewmodel/RideViewModel.kt:118-123 | No dispatch lands on TRIP_COMPLETED; from HEADING_TO_DROPOFF it lands on TRIP_ENDED with earnings set |
| `ViewModel.SevenStepCycle` | app/src/main/java/com/ben/lincride/presentation/viewmodel/RideViewModel.kt:97-132 | From any IDLE snapshot, seven dispatches pass OFFER, ACCEPTED, GET_TO_PICKUP, PICKUP_CONFIRMATION, HEADING_TO_DROPOFF, TRIP_ENDED and return to the initial snapshot |
| `ViewModel.ScriptMatchesDispatch` | app/src/main/java/com/ben/lincride/presentation/viewmodel/RideViewModel.kt:32-70 | From IDLE, six dispatches give exactly the result of the simulation script |
| `ViewModel.SimulationOutcome` | app/src/main/java/com/ben/lincride/presentation/viewmodel/RideViewModel.kt:32-70 | The script ends at TRIP_ENDED, simulating, with the 6500 earnings, step 4/4, the sample vehicle, and both sample passengers DROPPED_OFF |
| `ViewModel.SimulationForgetsPriorState` | app/src/main/java/com/ben/lincride/presentation/viewmodel/RideViewModel.kt:167-173 | The script's result does not depend on the snapshot it starts from |
| `ViewModel.UnguardedCommandsLeaveLifecycle` | app/src/main/java/com/ben/lincride/domain/repository/RideSimulationEngine.kt:27-57 | After a full trip, an offer keeps the old earnings (breaking the invariant) and accepting turns DROPPED_OFF back into ACCEPTED |
| `ViewModel.RideViewModel.constructor` | app/src/main/java/com/ben/lincride/presentation/viewmodel/RideViewModel.kt:19-27 | The view model holds the engine itself, so the state it exposes is the engine's state |
| `ViewModel.RideViewModel.StartRideSimulation` | app/src/main/java/com/ben/lincride/presentation/viewmodel/RideViewModel.kt:32-70 | Runs offer, accept, get-to-pickup, pickup-confirmation, heading-to-drop-off, complete, end in that order |
| `ViewModel.RideViewModel.StartRideOffer` | app/src/main/java/com/ben/lincride/presentation/viewmodel/RideViewModel.kt:75-88 | One engine offer |
| `ViewModel.RideViewModel.ProgressToNextEvent` | app/src/main/java/com/ben/lincride/presentation/viewmodel/RideViewModel.kt:93-135 | The new engine state is the dispatch table applied to the event read at the call |
| `ViewModel.RideViewModel.ConfirmPickup` | app/src/main/java/com/ben/lincride/presentation/viewmodel/RideViewModel.kt:140-144 | One engine heading-to-drop-off call |
| `ViewModel.RideViewModel.HandlePassengerNoShow` | app/src/main/java/com/ben/lincride/presentation/viewmodel/RideViewModel.kt:149-153 | One engine no-show call with the same id |
| `ViewModel.RideViewModel.ResetSimulation` | app/src/main/java/com/ben/lincride/presentation/viewmodel/RideViewModel.kt:158-162 | One engine reset |
| `ViewModel.RideViewModel.StartNewTrip` | app/src/main/java/com/ben/lincride/presentation/viewmodel/RideViewModel.kt:167-173 | A reset followed by the script: ends at TRIP_ENDED with the fixed earnings, independent of the state before |
| `RoutePolylines.CreateMultiStopRoute` | app/src/main/java/com/ben/lincride/ui/components/RoutePolylines.kt:274-314 | The segments are the legs through driver, pickups and drop-offs in order (driver omitted without pickups); count (p>0) + max(p−1,0) + (p>0 ∧ d>0) + max(d−1,0); two points each; each starts where the previous ends; the first starts at the driver when p>0; pickup legs precede drop-off legs |
| `RoutePolylines.DistanceMarkerPositions` | app/src/main/java/com/ben/lincride/ui/components/RoutePolylines.kt:228-243 | Three markers at the in-bounds quarter indices (k+1)·n/4 when n ≥ 4, none otherwise |
| `RoutePolylines.TruncateMonotonic` | app/src/main/java/com/ben/lincride/ui/components/RoutePolylines.kt:40 | Rounding toward zero is monotone |
| `RoutePolylines.TargetIndexMonotonic` | app/src/main/java/com/ben/lincride/ui/components/RoutePolylines.kt:40 | The target index (truncated size × progress, capped at size − 1) never decreases as progress grows |
| `RoutePolylines.VisiblePoints` | app/src/main/java/com/ben/lincride/ui/components/RoutePolylines.kt:36-47 | The visible points are a prefix of the points, all of them at progress ≥ 1, at least one when there are points, exactly one when the target index is ≤ 0 |
| `RoutePolylines.VisiblePointsCount` | app/src/main/java/com/ben/lincride/ui/components/RoutePolylines.kt:36-47 | For 0 ≤ progress < 1 and n > 0 points, the visible count k satisfies k − 1 ≤ n · progress < k, so floor(n · progress) + 1 points show |
| `RoutePolylines.VisiblePointsGrow` | app/src/main/java/com/ben/lincride/ui/components/RoutePolylines.kt:36-47 | For progress 0 ≤ p1 ≤ p2 the visible points at p1 are a prefix of those at p2 |
| `RoutePolylines.MultiSegmentDrawing` | app/src/main/java/com/ben/lincride/ui/components/RoutePolylines.kt:63-84 | Segments before the current index show whole, segments after it are not drawn, the current one shows whole once its progress reaches 1 |
| `PickupConfirmation.RunWaitingCountdown` | app/src/main/java/com/ben/lincride/ui/screens/PickupConfirmationBottomSheet.kt:44-53 | Only while visible: the clock steps down by exactly 1 per tick from its start to 0 and stops there, never showing a negative value for a non-negative start |
| `PickupConfirmation.SplitClock` | app/src/main/java/com/ben/lincride/ui/screens/PickupConfirmationBottomSheet.kt:55-56 | minutes·60 + seconds = time, with seconds < 60 |
| `PickupConfirmation.PadTwoOfTwoDigits` | app/src/main/java/com/ben/lincride/ui/screens/PickupConfirmationBottomSheet.kt:57 | `%02d` of a number below 100 is two digits whose value is that number |
| `PickupConfirmation.FormatRoundTrip` | app/src/main/java/com/ben/lincride/ui/screens/PickupConfirmationBottomSheet.kt:55-57 | Below 100 minutes the text is digit, digit, ':', digit, digit, and parsing it gives back the time |
| `PickupConfirmation.FormatExamples` | app/src/main/java/com/ben/lincride/ui/screens/PickupConfirmationBottomSheet.kt:44-57 | The starting 285 s shows as "04:45" and 0 s as "00:00" |
| `PickupConfirmation.DragEndDecision` | app/src/main/java/com/ben/lincride/ui/screens/PickupConfirmationBottomSheet.kt:428-431 | Didn't-show iff offset < −threshold, picked-up iff offset > threshold, neither otherwise |
| `PickupConfirmation.SwipeableActionArea.constructor` | app/src/main/java/com/ben/lincride/ui/screens/PickupConfirmationBottomSheet.kt:410-412 | The drag offset starts at 0 |
| `PickupConfirmation.SwipeableActionArea.OnDrag` | app/src/main/java/com/ben/lincride/ui/screens/PickupConfirmationBottomSheet.kt:434-436 | The offset grows by each horizontal drag amount |
| `PickupConfirmation.SwipeableActionArea.OnDragEnd` | app/src/main/java/com/ben/lincride/ui/screens/PickupConfirmationBottomSheet.kt:428-433 | Reports the decision on the accumulated offset and resets the offset to 0 |
| `GetToPickup.RemainingTime` | app/src/main/java/com/ben/lincride/ui/screens/GetToPickupBottomSheet.kt:50 | Remaining minutes are never negative, zero iff progress ≥ 1, and 4·(1 − progress) below that |
| `GetToPickup.EtaLabelRanges` | app/src/main/java/com/ben/lincride/ui/screens/GetToPickupBottomSheet.kt:50-53 | "Arrived" iff progress ≥ 1; whole minutes (1 to 4 for progress from 0 on) iff progress ≤ 0.75; seconds in [0, 60) iff 0.75 < progress < 1 |
| `GetToPickup.EtaLabelValue` | app/src/main/java/com/ben/lincride/ui/screens/GetToPickupBottomSheet.kt:50-53 | A minutes label shows the whole minutes left (m ≤ remaining < m + 1); a seconds label the whole seconds left (s ≤ 60 · remaining < s + 1) |
| `GetToPickup.RunGetToPickup` | app/src/main/java/com/ben/lincride/ui/screens/GetToPickupBottomSheet.kt:41-60 | Nothing runs when not visible; otherwise progress rises by exactly 0.01 per tick while below 1, ends at or above 1 with "Arrived", and the completion callback fires exactly once; the label shown with each progress value is the starting label first and then the label that value gives, so a start at or above 1 keeps its label |
| `GetToPickup.FirstTickRelabels` | app/src/main/java/com/ben/lincride/ui/screens/GetToPickupBottomSheet.kt:41-53 | The sheet opens showing "4 min", and the first tick from 0.3 relabels it "2 min" |
| `HeadingToDropOff.RunHeadingToDropOff` | app/src/main/java/com/ben/lincride/ui/screens/HeadingToDropOffBottomSheet.kt:74-88 | Nothing runs when not visible; otherwise progress rises by exactly 0.005 per tick while below 1, ends at or above 1, and the completion callback fires exactly once |
| `HeadingToDropOff.SampleRouteStopsShape` | app/src/main/java/com/ben/lincride/ui/screens/HeadingToDropOffBottomSheet.kt:488-495 | Four stops STARTING_POINT, DROP_OFF_1, DROP_OFF_2, DESTINATION, each the next-stop successor of the previous (the last has none); the start is completed; DROP_OFF_1 is exactly one of completed and current; DESTINATION is completed iff DROP_OFF_2 is, iff progress ≥ 1 |
| `HeadingToDropOff.StopsAtStart` | app/src/main/java/com/ben/lincride/ui/screens/HeadingToDropOffBottomSheet.kt:488-495 | The stops' default progress is the sheet's starting 0.4; there the start is completed, the first drop-off is the only current stop, and no later stop is completed |
| `HeadingToDropOff.CurrentStops` | app/src/main/java/com/ben/lincride/ui/screens/HeadingToDropOffBottomSheet.kt:491-492 | Exactly one stop is current, except two at progress 0.6 and none above 0.99 |

## Left out

- Coroutines, `delay`, `LaunchedEffect` restarts and the StateFlow broadcast are left out. Each launch is its engine calls run in order, and the state is a field.
- Logging, dependency injection, and the `try`/`catch` around the view model's offer are left out. The modelled commands cannot throw.
- Compose rendering, colours, typography, animation easing and previews are left out. A polyline's animated progress is taken at its target value.
- Map geometry (interpolation, bearings, marker offsets) and the map SDK's marker icons are left out.
- Compose cancels a `LaunchedEffect`'s coroutine when its sheet leaves composition. The map screen composes each sheet only while its event is current, so a progression loop can stop before progress reaches 1.0 when the event changes from outside. The model does not capture that early stop.
- Floating-point rounding is left out. `Float` and `Double` are exact reals, so the number of ticks a loop needs is not stated. NaN and infinite progress values are not modelled.
- The distance-marker interval argument is left out because the source ignores it.
- The wiring in the main map screen is left out: auto-advance delays, and which passenger "Didn't show" targets.
- The unused data and repository declarations in the core data module are left out, as is the placeholder trip screen.
- `RideTransitions.NoShowEffect`: seats are unbounded integers. Kotlin's wrap-around of `availableSeats + 1` at `Int.MAX_VALUE` is not modelled. Along dispatch and the pickup commands, every vehicle has 2 to 4 seats (`Coherent`, `NextPreservesCoherent`, `NoShowPreservesCoherent`), so the wrap-around cannot arise there.
- `PickupConfirmation.FormatWaitingTime`: `%02d` writes digits with the device's default locale's zero digit, but the model writes ASCII digits. The "mm:ss" text, `FormatExamples` and `FormatRoundTrip` are therefore stated only for locales whose zero digit is '0'.
- `PickupConfirmation.FormatRoundTrip`: the text is stated only for non-negative times below 100 minutes. The countdown never shows a negative time from its start of 285.
