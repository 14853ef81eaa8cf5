# MATSim transit driver and link-entry tracker, modelled in Dafny

This project models two pieces of MATSim's queue-based mobility simulation:

- **The transit driver state machine** (`AbstractTransitDriver`). A scheduled public-transport driver steers its vehicle along a network route that many drivers share read-only. It keeps a link cursor `nextLinkIndex` over that route and a stop cursor (`stopIterator`, `nextStop`, `currentStop`) over its transit route's ordered stops. At each stop it checks that the stop is the expected one. It reports the arrival once per stop visit, stretches the dwell time of an early vehicle to keep to the schedule, and departs when the stop time is zero. After the last stop the vehicle must be empty.
- **The within-day link-entry tracker** (`LinkEnteredProvider`). It keeps a map from agent to link for the running simulation step, fed by link-enter, arrival and stuck events. At the end of each step that map becomes the "last step" map.

Modules:

- `Wrappers` and `Ids`: `Option`, `Result` and `Outcome`, and string identifiers.
- `Doubles`: Java's `double` as a finite real, NaN or one of the two infinities, with IEEE 754 addition, subtraction and `<`. This keeps the source's tests on NaN and infinity meaningful.
- `TransitSchedule`: the read-only schedule and route data, the events and the fatal errors. `RouteWrapping` holds the driver's read-only route wrapper.
- `TransitRouting`: `chooseNextLinkId`, `getCurrentLinkId` and `assertAllStopsServed` as functions of the route and cursors, with lemmas about driving a whole route.
- `StopTiming`: the schedule hold and the arrival and departure delays.
- `TransitDriver`: the driver class `AbstractTransitDriver`, whose methods update its cursors, its event log and its vehicle's passengers.
- `LinkEnteredTracking`: the tracker class with its two maps, plus a theorem about what one simulation step leaves in the map.

Fatal exceptions become `Failure`/`Fail` results. The driver's state is left as it was at the point of the throw. For example, a failing departure from the last stop has already recorded the departure event and moved the stop cursor.

Two consequences of the code that the model makes explicit:

- **Arrival delay.** The test on the arrival offset at matsim/src/main/java/org/matsim/core/mobsim/qsim/pt/AbstractTransitDriver.java:223-224, `!(isNaN(x) && isInfinite(x))`, holds for every double. So the arrival offset is always subtracted, and the branches at lines 227-232 are dead code. `StopTiming.ArrivalDelay` states exactly this.
- **Schedule hold.** The hold is tried only when boarding and alighting needed no time, i.e. the stop time is exactly 0 (line 167). While boarding and alighting still need time, no hold is added; it can apply only at a later call with a stop time of 0. `StopTiming.StopTimeAfterHold` states this.

## Model

| member | source | states |
|---|---|---|
| `RouteWrapping.NetworkRouteWrapper.View` | matsim/src/main/java/org/matsim/core/mobsim/qsim/pt/AbstractTransitDriver.java:341-406 | the wrapper shows the shared route's links, start, end, cost, distance and travel time unchanged, but reports the driver's own vehicle id |
| `RouteWrapping.NetworkRouteWrapper.Update` | matsim/src/main/java/org/matsim/core/mobsim/qsim/pt/AbstractTransitDriver.java:361-416 | every setter of the wrapper fails with the read-only error, so no driver can change the shared route |
| `TransitRouting.AssertAllStopsServed` | matsim/src/main/java/org/matsim/core/mobsim/qsim/pt/AbstractTransitDriver.java:287-294 | passes exactly when no stop is pending; otherwise fails naming the vehicle and the pending stop |
| `TransitRouting.ChooseNextLinkId` | matsim/src/main/java/org/matsim/core/mobsim/qsim/pt/AbstractTransitDriver.java:100-120 | the intermediate link under the cursor; at the end of those links, the end link, or nothing for a single-link loop; past the end of the route, nothing when all stops are served, a failure iff a stop is still pending |
| `TransitRouting.GetCurrentLinkId` | matsim/src/main/java/org/matsim/core/mobsim/qsim/pt/AbstractTransitDriver.java:127-137 | the start link before the first node crossing, the link last entered while on intermediate links, the end link afterwards |
| `TransitRouting.DriveFollowsRoute` | matsim/src/main/java/org/matsim/core/mobsim/qsim/pt/AbstractTransitDriver.java:100-142 | repeatedly choosing the next link and crossing into it, from any cursor position, enters the remaining intermediate links in order and then the end link; a single-link loop enters nothing |
| `TransitRouting.DriveFromStart` | matsim/src/main/java/org/matsim/core/mobsim/qsim/pt/AbstractTransitDriver.java:86-142 | from the cursor that init sets, the driver enters exactly the route's links followed by its end link (nothing for a single-link loop) |
| `TransitRouting.ChosenLinkBecomesCurrent` | matsim/src/main/java/org/matsim/core/mobsim/qsim/pt/AbstractTransitDriver.java:100-142 | once the driver crosses the node into the link it chose, that link is its current link |
| `TransitRouting.SharedRouteRoutesAlike` | matsim/src/main/java/org/matsim/core/mobsim/qsim/pt/AbstractTransitDriver.java:325-359 | drivers sharing one route through their wrappers get the same routing answers as the shared route itself |
| `StopTiming.IsBadDouble` | matsim/src/main/java/org/matsim/core/mobsim/qsim/pt/AbstractTransitDriver.java:255-260 | a double is bad exactly when it is not finite (NaN or infinite) |
| `StopTiming.LongerStopTimeIfWeAreAheadOfSchedule` | matsim/src/main/java/org/matsim/core/mobsim/qsim/pt/AbstractTransitDriver.java:244-253 | when the stop awaits its departure time, has a defined departure offset and the vehicle would leave before the scheduled departure, the stop time becomes exactly the scheduled departure minus now, which is strictly longer and makes the vehicle leave no earlier than scheduled; otherwise the stop time is unchanged |
| `StopTiming.StopTimeAfterHold` | matsim/src/main/java/org/matsim/core/mobsim/qsim/pt/AbstractTransitDriver.java:165-173 | the hold is tried only for a zero stop time; the final stop time is zero (so the vehicle departs) iff boarding took no time and no hold applies |
| `StopTiming.HoldKeepsSchedule` | matsim/src/main/java/org/matsim/core/mobsim/qsim/pt/AbstractTransitDriver.java:244-253 | with a finite schedule, the stop time is the larger of the boarding time and the time left until the scheduled departure |
| `StopTiming.NoHoldWhenNotEarly` | matsim/src/main/java/org/matsim/core/mobsim/qsim/pt/AbstractTransitDriver.java:244-253 | a vehicle that is on time or late keeps its stop time |
| `StopTiming.ArrivalDelay` | matsim/src/main/java/org/matsim/core/mobsim/qsim/pt/AbstractTransitDriver.java:220-232 | the arrival delay is always now minus the run's departure time minus the stop's arrival offset (the fallback branches are unreachable); finite iff both are finite |
| `StopTiming.DepartureDelay` | matsim/src/main/java/org/matsim/core/mobsim/qsim/pt/AbstractTransitDriver.java:262-276 | the departure delay is always finite: time since the run's departure (0 when that time is bad) less the departure offset, else the arrival offset, else nothing |
| `StopTiming.OnTimeDepartureHasNoDelay` | matsim/src/main/java/org/matsim/core/mobsim/qsim/pt/AbstractTransitDriver.java:262-276 | leaving exactly at the scheduled departure reports a delay of 0 |
| `StopTiming.DelayGrowsWithLateness` | matsim/src/main/java/org/matsim/core/mobsim/qsim/pt/AbstractTransitDriver.java:220-276 | with a finite run departure time, arrival and departure delays grow one-for-one with the time of the event |
| `TransitDriver.AssertExpectedStop` | matsim/src/main/java/org/matsim/core/mobsim/qsim/pt/AbstractTransitDriver.java:238-242 | passes exactly when the vehicle stands at the facility of the stop it was heading for; fails on any other facility, and on an absent next stop |
| `TransitDriver.AssertVehicleIsEmpty` | matsim/src/main/java/org/matsim/core/mobsim/qsim/pt/AbstractTransitDriver.java:296-307 | passes exactly when nobody is aboard; otherwise fails naming the vehicle and every passenger |
| `TransitDriver.FirstStop` | matsim/src/main/java/org/matsim/core/mobsim/qsim/pt/AbstractTransitDriver.java:86-92 | the first stop of the transit route; none if the route is absent or has no stops |
| `TransitDriver.TransitDriverStartsEvent` | matsim/src/main/java/org/matsim/core/mobsim/qsim/pt/AbstractTransitDriver.java:176-185 | a driver without a transit line starts with line, route and departure id "Wenden"; otherwise with its line, route and departure ids |
| `TransitDriver.AbstractTransitDriver.constructor` | matsim/src/main/java/org/matsim/core/mobsim/qsim/pt/AbstractTransitDriver.java:53-84 | a new driver is in the activity state, with both cursors at the start, no current or next stop, an empty vehicle and no events |
| `TransitDriver.AbstractTransitDriver.Init` | matsim/src/main/java/org/matsim/core/mobsim/qsim/pt/AbstractTransitDriver.java:86-94 | rewinds the link cursor to 0 and sets the next stop to the route's first stop (none for an absent or empty route), with the stop iterator just past it |
| `TransitDriver.AbstractTransitDriver.GetNextTransitStop` | matsim/src/main/java/org/matsim/core/mobsim/qsim/pt/AbstractTransitDriver.java:144-150 | the facility of the next stop, or none when no stop is left |
| `TransitDriver.AbstractTransitDriver.GetWrappedCarRoute` | matsim/src/main/java/org/matsim/core/mobsim/qsim/pt/AbstractTransitDriver.java:310-312 | wraps a route so that it shows the same links, start and end, and this driver's vehicle id |
| `TransitDriver.AbstractTransitDriver.Abort` | matsim/src/main/java/org/matsim/core/mobsim/qsim/pt/AbstractTransitDriver.java:122-125 | the agent is in the abort state afterwards, and nothing else changes |
| `TransitDriver.AbstractTransitDriver.NotifyMoveOverNode` | matsim/src/main/java/org/matsim/core/mobsim/qsim/pt/AbstractTransitDriver.java:139-142 | the link cursor moves on by exactly one, whatever link is given, and nothing else changes |
| `TransitDriver.AbstractTransitDriver.SendTransitDriverStartsEvent` | matsim/src/main/java/org/matsim/core/mobsim/qsim/pt/AbstractTransitDriver.java:176-185 | appends the driver-start event; fails without appending when a driver with a line has no transit route |
| `TransitDriver.AbstractTransitDriver.ProcessEventVehicleArrives` | matsim/src/main/java/org/matsim/core/mobsim/qsim/pt/AbstractTransitDriver.java:217-236 | on the first call of a stop visit, the next stop becomes the current stop and one arrival event with the arrival delay is appended; later calls change nothing |
| `TransitDriver.AbstractTransitDriver.Depart` | matsim/src/main/java/org/matsim/core/mobsim/qsim/pt/AbstractTransitDriver.java:262-285 | appends one departure event for the current stop with the departure delay, moves the stop cursor to the next stop or none, and clears the current stop, except that leaving the last stop with passengers aboard fails with them named |
| `TransitDriver.AbstractTransitDriver.HandleTransitStop` | matsim/src/main/java/org/matsim/core/mobsim/qsim/pt/AbstractTransitDriver.java:152-174 | fails with nothing changed at an unexpected facility; otherwise takes the boarding result, records the arrival once per visit, departs iff the stop time after the schedule hold is zero, and returns that stop time |
| `LinkEnteredTracking.Track` | matsim/src/main/java/org/matsim/withinday/trafficmonitoring/LinkEnteredProvider.java:63-80 | a link-enter records the agent on that link, overwriting any earlier entry; an arrival or a stuck event removes the agent (an absent agent stays absent); no other agent's entry changes |
| `LinkEnteredTracking.LastEventOf` | matsim/src/main/java/org/matsim/withinday/trafficmonitoring/LinkEnteredProvider.java:63-80 | the last event about an agent in a sequence: none exactly when no event is about it; otherwise an event about it with no later event about it |
| `LinkEnteredTracking.TrackAllFollowsLastEvent` | matsim/src/main/java/org/matsim/withinday/trafficmonitoring/LinkEnteredProvider.java:63-80 | after any sequence of events, an agent's entry is decided by the last event about it, and is untouched when there is none |
| `LinkEnteredTracking.StepRecordsLastLinkEntered` | matsim/src/main/java/org/matsim/withinday/trafficmonitoring/LinkEnteredProvider.java:37-86 | starting a step from the empty map, an agent ends up recorded on link l exactly when its last event of the step was entering l |
| `LinkEnteredTracking.LinkEnteredProvider.constructor` | matsim/src/main/java/org/matsim/withinday/trafficmonitoring/LinkEnteredProvider.java:50-51 | both maps start empty |
| `LinkEnteredTracking.LinkEnteredProvider.GetLinkEnteredAgentsInLastTimeStep` | matsim/src/main/java/org/matsim/withinday/trafficmonitoring/LinkEnteredProvider.java:53-55 | returns the contents of the last step's map and changes nothing |
| `LinkEnteredTracking.LinkEnteredProvider.Reset` | matsim/src/main/java/org/matsim/withinday/trafficmonitoring/LinkEnteredProvider.java:57-61 | both maps are empty afterwards |
| `LinkEnteredTracking.LinkEnteredProvider.HandlePersonStuckEvent` | matsim/src/main/java/org/matsim/withinday/trafficmonitoring/LinkEnteredProvider.java:63-66 | the running step's map loses the agent; the last step's map is untouched |
| `LinkEnteredTracking.LinkEnteredProvider.HandlePersonArrivalEvent` | matsim/src/main/java/org/matsim/withinday/trafficmonitoring/LinkEnteredProvider.java:72-75 | the running step's map loses the agent; the last step's map is untouched |
| `LinkEnteredTracking.LinkEnteredProvider.HandleLinkEnterEvent` | matsim/src/main/java/org/matsim/withinday/trafficmonitoring/LinkEnteredProvider.java:77-80 | the running step's map records the agent on the link; the last step's map is untouched |
| `LinkEnteredTracking.LinkEnteredProvider.NotifyMobsimAfterSimStep` | matsim/src/main/java/org/matsim/withinday/trafficmonitoring/LinkEnteredProvider.java:82-86 | the last step's map becomes exactly the running step's map, and the running step's map becomes empty |

## Left out

- Boarding and alighting (`PassengerAccessEgressImpl`) is not part of this model. Its answer is an input to `HandleTransitStop`: the stop time and the passengers aboard afterwards. The list of stops still to come, which the source hands to it, is not modelled.
- The events manager is the driver's append-only `events` sequence. Logging, including the "Could not calculate delay!" warnings and the per-passenger error lines, is left out.
- Finite doubles are exact reals: rounding and the sign of zero are not modelled. `Time` is not part of this model; its `UNDEFINED_TIME` is taken to be negative infinity.
- The vehicle object is not modelled separately. The driver holds its vehicle id and passenger list. `setVehicle` and `setDriver` are folded into the constructor, and all passengers are named in the error, where the source logs only the person agents among them.
- Stop facilities are compared by id, where the source compares object references.
- A null dereference in the source is the `NullReference` error (an absent next stop at a stop, or a line without a route at the driver-start event).
- The abstract members that concrete drivers implement (`endLegAndComputeNextState`, `getCurrentLeg`, and the route, line, departure and activity-end getters) appear only as constants of the driver. The trivial accessors `getState`, `getPerson`, `getId`, `getVehicle` and `getSimulation` are left out, and so is the empty `notifyArrivalOnLinkByNonNetworkMode`.
- The wrapper's `getSubRoute` and `clone` are left out: they forward to or copy a route implementation that is not part of this model.
- LinkEnteredTracking.LinkEnteredProvider.GetLinkEnteredAgentsInLastTimeStep: returns a snapshot of the last step's map. The source returns a read-only live view of that map object, and a later `reset` clears the same object, so that view becomes empty. The snapshot keeps its contents.
- `LinkEnteredProvider` uses `ConcurrentHashMap`s; its maps here are plain map values, and concurrent access is not modelled.
- The link queue, the node mover and the time-step orchestrator are not part of this model.
