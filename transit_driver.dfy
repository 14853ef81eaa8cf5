/**
 * The transit driver state machine: a driver steers its vehicle along a shared
 * network route (cursor `nextLinkIndex`) and serves the stops of its transit
 * route in order (cursor `stopIterator`, with `nextStop` the stop it heads for
 * and `currentStop` the stop it is standing at, if any).
 */
module TransitDriver {
  import opened Wrappers
  import opened Ids
  import opened Doubles
  import opened TransitSchedule
  import opened RouteWrapping
  import opened TransitRouting
  import opened StopTiming

  /** The mobsim agent states. */
  datatype State = Activity | Leg | Abort

  /** What boarding and alighting at a stop yield: the time it takes and who is aboard afterwards. */
  datatype Boarding = Boarding(stopTime: real, passengers: seq<Id>)

  /** The id used for line, route and departure of a driver without a transit line ("Wenden", turning). */
  const WENDEN: Id := "Wenden"

  /** Fails unless the vehicle reached the facility of the stop it was heading for. */
  function AssertExpectedStop(nextStop: Option<TransitRouteStop>, stop: Id): (r: Outcome<DriverError>)
    ensures r.Pass? <==> nextStop.Some? && nextStop.value.stopFacilityId == stop
    ensures r.Fail? ==> r.error == if nextStop.None? then NullReference else UnexpectedStop(stop)
  {
    if nextStop.None? then Fail(NullReference)
    else if stop != nextStop.value.stopFacilityId then Fail(UnexpectedStop(stop))
    else Pass
  }

  /** Fails, naming the vehicle and everyone aboard, unless the vehicle is empty. */
  function AssertVehicleIsEmpty(vehicleId: Id, passengers: seq<Id>): (r: Outcome<DriverError>)
    ensures r.Pass? <==> |passengers| == 0
    ensures r.Fail? ==> r.error == PassengersStillAboard(vehicleId, passengers)
  {
    if |passengers| > 0 then Fail(PassengersStillAboard(vehicleId, passengers)) else Pass
  }

  /** The first stop of the route, or none for an absent or empty route. */
  function FirstStop(transitRoute: Option<TransitRoute>): (r: Option<TransitRouteStop>)
    ensures r.Some? <==> transitRoute.Some? && |transitRoute.value.stops| > 0
    ensures r.Some? ==> r.value == transitRoute.value.stops[0]
  {
    if transitRoute.Some? && |transitRoute.value.stops| > 0 then Some(transitRoute.value.stops[0]) else None
  }

  /** The event that announces a driver's start; a driver without a line is a turning driver. */
  function TransitDriverStartsEvent(now: real, driverId: Id, vehicleId: Id, transitLine: Option<TransitLine>,
                                    transitRoute: Option<TransitRoute>, departure: Departure): (r: Result<Event, DriverError>)
    ensures transitLine.None? ==> r == Success(TransitDriverStarts(now, driverId, vehicleId, WENDEN, WENDEN, WENDEN))
    ensures transitLine.Some? ==> (r.Success? <==> transitRoute.Some?)
    ensures transitLine.Some? && r.Success? ==>
              r.value == TransitDriverStarts(now, driverId, vehicleId, transitLine.value.id,
                                             transitRoute.value.id, departure.id)
    ensures r.Failure? ==> r.error == NullReference
  {
    if transitLine.None? then Success(TransitDriverStarts(now, driverId, vehicleId, WENDEN, WENDEN, WENDEN))
    else if transitRoute.None? then Failure(NullReference)
    else Success(TransitDriverStarts(now, driverId, vehicleId, transitLine.value.id, transitRoute.value.id, departure.id))
  }

  /**
   * The routing queries `chooseNextLinkId` and `getCurrentLinkId` are the
   * `TransitRouting` functions of this driver's `carRoute`, `nextLinkIndex`
   * and `nextStop`.
   */
  class AbstractTransitDriver {
    // What a concrete driver supplies (the source's abstract getters).
    const carRoute: NetworkRoute
    const transitLine: Option<TransitLine>
    const transitRoute: Option<TransitRoute>
    const departure: Departure
    const activityEndTime: Double
    const driverId: Id
    const vehicleId: Id

    var nextLinkIndex: nat
    var currentStop: Option<TransitRouteStop>
    var nextStop: Option<TransitRouteStop>
    var stopIterator: nat             // index of the stop the iterator hands out next
    var state: State
    var passengers: seq<Id>           // who is aboard the driver's vehicle
    var events: seq<Event>            // what the driver has handed to the events manager

    /** The stop cursors agree with the route: `nextStop` is the stop the iterator handed out last. */
    ghost predicate Valid()
      reads this
    {
      && (transitRoute.Some? ==> stopIterator <= |transitRoute.value.stops|)
      && (nextStop.Some? ==>
            transitRoute.Some? && 0 < stopIterator && nextStop.value == transitRoute.value.stops[stopIterator - 1])
      && (currentStop.Some? ==> transitRoute.Some?)
    }

    /** A driver starts in the activity state with an unset stop cursor and an empty vehicle. */
    constructor (carRoute: NetworkRoute, transitLine: Option<TransitLine>, transitRoute: Option<TransitRoute>,
                 departure: Departure, activityEndTime: Double, driverId: Id, vehicleId: Id)
      ensures Valid()
      ensures this.carRoute == carRoute && this.transitLine == transitLine && this.transitRoute == transitRoute
      ensures this.departure == departure && this.activityEndTime == activityEndTime
      ensures this.driverId == driverId && this.vehicleId == vehicleId
      ensures nextLinkIndex == 0 && currentStop == None && nextStop == None && stopIterator == 0
      ensures state == Activity && passengers == [] && events == []
    {
      this.carRoute, this.transitLine, this.transitRoute := carRoute, transitLine, transitRoute;
      this.departure, this.activityEndTime := departure, activityEndTime;
      this.driverId, this.vehicleId := driverId, vehicleId;
      nextLinkIndex, currentStop, nextStop, stopIterator := 0, None, None, 0;
      state, passengers, events := Activity, [], [];
    }

    /** Rewinds the link cursor and points the stop cursor at the first stop of the route. */
    method Init()
      requires Valid()
      modifies this`nextStop, this`stopIterator, this`nextLinkIndex
      ensures Valid()
      ensures nextLinkIndex == 0
      ensures nextStop == FirstStop(transitRoute)
      ensures transitRoute.Some? ==> stopIterator == if nextStop.Some? then 1 else 0
      ensures transitRoute.None? ==> stopIterator == old(stopIterator)
    {
      if transitRoute.Some? {
        stopIterator := 0;
        if stopIterator < |transitRoute.value.stops| {
          nextStop := Some(transitRoute.value.stops[stopIterator]);
          stopIterator := stopIterator + 1;
        } else {
          nextStop := None;
        }
      } else {
        nextStop := None;
      }
      nextLinkIndex := 0;
    }

    /** The facility the driver heads for, if any stop is left. */
    function GetNextTransitStop(): (r: Option<Id>)
      reads this
      ensures r.Some? <==> nextStop.Some?
      ensures r.Some? ==> r.value == nextStop.value.stopFacilityId
    {
      if nextStop.None? then None else Some(nextStop.value.stopFacilityId)
    }

    /** The shared car route as this driver shows it: read-only, with this driver's vehicle id. */
    function GetWrappedCarRoute(route: NetworkRoute): (w: NetworkRouteWrapper)
      ensures w.View().linkIds == route.linkIds
      ensures w.View().startLinkId == route.startLinkId && w.View().endLinkId == route.endLinkId
      ensures w.View().vehicleId == Some(vehicleId)
    {
      NetworkRouteWrapper(route, vehicleId)
    }

    /** The agent gives up: it enters the terminal abort state, whatever state it was in. */
    method Abort(now: real)
      modifies this`state
      ensures state == State.Abort
    {
      state := State.Abort;
    }

    /** Crossing a node moves the link cursor on by one, whichever link is entered. */
    method NotifyMoveOverNode(nextLinkId: Id)
      modifies this`nextLinkIndex
      ensures nextLinkIndex == old(nextLinkIndex) + 1
    {
      nextLinkIndex := nextLinkIndex + 1;
    }

    /** Announces the driver's start. */
    method SendTransitDriverStartsEvent(now: real) returns (r: Outcome<DriverError>)
      modifies this`events
      ensures var e := TransitDriverStartsEvent(now, driverId, vehicleId, transitLine, transitRoute, departure);
              && (r.Pass? <==> e.Success?)
              && (e.Success? ==> events == old(events) + [e.value])
              && (e.Failure? ==> r == Fail(e.error) && events == old(events))
    {
      var e := TransitDriverStartsEvent(now, driverId, vehicleId, transitLine, transitRoute, departure);
      if e.Failure? {
        return Fail(e.error);
      }
      events := events + [e.value];
      r := Pass;
    }

    /** On the first call at a stop visit: records the arrival and marks the next stop as the current one. */
    method ProcessEventVehicleArrives(stop: Id, now: real)
      requires Valid() && nextStop.Some?
      modifies this`currentStop, this`events
      ensures Valid()
      ensures old(currentStop).None? ==>
                && currentStop == nextStop
                && events == old(events) +
                     [VehicleArrivesAtFacility(now, vehicleId, stop, ArrivalDelay(now, departure.departureTime, nextStop.value))]
      ensures old(currentStop).Some? ==> currentStop == old(currentStop) && events == old(events)
    {
      if currentStop.None? {
        currentStop := nextStop;
        var delay := ArrivalDelay(now, departure.departureTime, currentStop.value);
        events := events + [VehicleArrivesAtFacility(now, vehicleId, stop, delay)];
      }
    }

    /**
     * Leaves the current stop: records the departure, moves the stop cursor on
     * and clears the current stop. Leaving the last stop with passengers aboard
     * fails, with the departure recorded and the cursor already moved.
     */
    method Depart(now: real) returns (r: Outcome<DriverError>)
      requires Valid() && currentStop.Some?
      modifies this`currentStop, this`nextStop, this`stopIterator, this`events
      ensures Valid()
      ensures events == old(events) +
                [VehicleDepartsAtFacility(now, vehicleId, old(currentStop).value.stopFacilityId,
                                          DepartureDelay(now, departure.departureTime, old(currentStop).value))]
      ensures var stops := transitRoute.value.stops;
              if old(stopIterator) < |stops|
              then nextStop == Some(stops[old(stopIterator)]) && stopIterator == old(stopIterator) + 1
              else nextStop == None && stopIterator == old(stopIterator)
      ensures r == if nextStop.None? then AssertVehicleIsEmpty(vehicleId, passengers) else Pass
      ensures currentStop == if r.Pass? then None else old(currentStop)
    {
      var delay := DepartureDelay(now, departure.departureTime, currentStop.value);
      events := events + [VehicleDepartsAtFacility(now, vehicleId, currentStop.value.stopFacilityId, delay)];
      var stops := transitRoute.value.stops;
      if stopIterator < |stops| {
        nextStop := Some(stops[stopIterator]);
        stopIterator := stopIterator + 1;
      } else {
        nextStop := None;
      }
      r := Pass;
      if nextStop.None? {
        r := AssertVehicleIsEmpty(vehicleId, passengers);
        if r.Fail? {
          return;
        }
      }
      currentStop := None;
    }

    /**
     * The vehicle stands at facility `stop`; `boarding` is what boarding and
     * alighting there yield. Fails at a facility other than the expected one.
     * Otherwise the arrival is recorded once per stop visit, the dwell time is
     * stretched to keep to the schedule, and the vehicle departs exactly when
     * the resulting stop time is zero. Returns that stop time.
     */
    method HandleTransitStop(stop: Id, now: real, boarding: Boarding) returns (r: Result<Double, DriverError>)
      requires Valid()
      modifies this`currentStop, this`nextStop, this`stopIterator, this`events, this`passengers
      ensures Valid()
      ensures old(AssertExpectedStop(nextStop, stop)).Fail? ==>
                r == Failure(old(AssertExpectedStop(nextStop, stop)).error) && unchanged(this)
      ensures old(AssertExpectedStop(nextStop, stop)).Pass? ==>
                var arrived := old(nextStop).value;
                var visiting := if old(currentStop).None? then arrived else old(currentStop).value;
                var arrivals := if old(currentStop).None? then
                                  [VehicleArrivesAtFacility(now, vehicleId, stop,
                                                            ArrivalDelay(now, departure.departureTime, arrived))]
                                else [];
                var stopTime := StopTimeAfterHold(arrived, activityEndTime, now, boarding.stopTime);
                var stops := transitRoute.value.stops;
                && passengers == boarding.passengers
                && (stopTime != Finite(0.0) ==>
                      && r == Success(stopTime)
                      && events == old(events) + arrivals
                      && currentStop == Some(visiting)
                      && nextStop == old(nextStop) && stopIterator == old(stopIterator))
                && (stopTime == Finite(0.0) ==>
                      && events == old(events) + arrivals +
                           [VehicleDepartsAtFacility(now, vehicleId, visiting.stopFacilityId,
                                                     DepartureDelay(now, departure.departureTime, visiting))]
                      && (if old(stopIterator) < |stops|
                          then nextStop == Some(stops[old(stopIterator)]) && stopIterator == old(stopIterator) + 1
                          else nextStop == None && stopIterator == old(stopIterator))
                      && (nextStop.None? && |passengers| > 0 ==>
                            r == Failure(PassengersStillAboard(vehicleId, passengers)) && currentStop == Some(visiting))
                      && (nextStop.Some? || |passengers| == 0 ==> r == Success(stopTime) && currentStop == None))
    {
      var expected := AssertExpectedStop(nextStop, stop);
      if expected.Fail? {
        return Failure(expected.error);
      }
      ProcessEventVehicleArrives(stop, now);
      passengers := boarding.passengers;
      var stopTime := StopTimeAfterHold(nextStop.value, activityEndTime, now, boarding.stopTime);
      if stopTime == Finite(0.0) {
        var departed := Depart(now);
        if departed.Fail? {
          return Failure(departed.error);
        }
      }
      r := Success(stopTime);
    }
  }
}
