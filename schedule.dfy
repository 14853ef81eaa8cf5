/**
 * The read-only inputs a transit driver works from (its network route and the
 * transit schedule), the events it emits and the fatal errors it raises.
 */
module TransitSchedule {
  import opened Wrappers
  import opened Ids
  import opened Doubles

  /** One stop of a transit route: the facility served and its schedule offsets. */
  datatype TransitRouteStop = TransitRouteStop(
    stopFacilityId: Id,
    arrivalOffset: Double,
    departureOffset: Double,
    awaitDepartureTime: bool)

  /** A transit route with its ordered stops. */
  datatype TransitRoute = TransitRoute(id: Id, stops: seq<TransitRouteStop>)

  datatype TransitLine = TransitLine(id: Id)

  /** One scheduled run of a route, starting at `departureTime`. */
  datatype Departure = Departure(id: Id, departureTime: Double)

  /** A network route: start link, the links in between, end link. */
  datatype NetworkRoute = NetworkRoute(
    startLinkId: Id,
    linkIds: seq<Id>,
    endLinkId: Id,
    vehicleId: Option<Id>,
    travelCost: real,
    distance: real,
    travelTime: Double)

  /** The events a transit driver hands to the events manager. */
  datatype Event =
    | TransitDriverStarts(time: real, driverId: Id, vehicleId: Id,
                          transitLineId: Id, transitRouteId: Id, departureId: Id)
    | VehicleArrivesAtFacility(time: real, vehicleId: Id, facilityId: Id, delay: Double)
    | VehicleDepartsAtFacility(time: real, vehicleId: Id, facilityId: Id, delay: Double)

  /** The fatal conditions of the driver and its route wrapper. */
  datatype DriverError =
    | NullReference                                          // an absent stop or route was dereferenced
    | UnexpectedStop(stopFacilityId: Id)                     // "Expected different stop."
    | NotYetAtLastStop(vehicleId: Id, nextStopFacilityId: Id)
    | PassengersStillAboard(vehicleId: Id, passengerIds: seq<Id>)
    | ReadOnlyRoute                                          // "read only route."
}

/**
 * The driver's read-only view of a network route that many drivers share: it
 * answers every query from the shared route, except the vehicle id, which is
 * the driver's own, and it refuses every update.
 */
module RouteWrapping {
  import opened Wrappers
  import opened Ids
  import opened Doubles
  import opened TransitSchedule

  /** The updates a `NetworkRoute` offers; the wrapper refuses all of them. */
  datatype RouteUpdate =
    | SetLinkIds(startLinkId: Id, linkIds: seq<Id>, endLinkId: Id)
    | SetTravelCost(travelCost: real)
    | SetVehicleId(vehicleId: Id)
    | SetEndLinkId(endLinkId: Id)
    | SetStartLinkId(startLinkId: Id)
    | SetDistance(distance: real)
    | SetTravelTime(travelTime: Double)

  datatype NetworkRouteWrapper = NetworkRouteWrapper(delegate: NetworkRoute, driverVehicleId: Id) {

    /** The route as its readers see it through the wrapper. */
    function View(): (r: NetworkRoute)
      ensures r.startLinkId == delegate.startLinkId
      ensures r.linkIds == delegate.linkIds
      ensures r.endLinkId == delegate.endLinkId
      ensures r.travelCost == delegate.travelCost
      ensures r.distance == delegate.distance
      ensures r.travelTime == delegate.travelTime
      ensures r.vehicleId == Some(driverVehicleId)
    {
      delegate.(vehicleId := Some(driverVehicleId))
    }

    /** Every setter fails and so leaves the shared route as it was. */
    function Update(u: RouteUpdate): (r: Outcome<DriverError>)
      ensures r.Fail? && r.error.ReadOnlyRoute?
    {
      Fail(ReadOnlyRoute)
    }
  }
}
