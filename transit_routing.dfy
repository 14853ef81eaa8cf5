/**
 * The transit driver's routing queries: which link it enters next and which
 * link it is on, both read off the shared network route with the cursor
 * `nextLinkIndex` that moves by one each time the vehicle crosses a node.
 */
module TransitRouting {
  import opened Wrappers
  import opened Ids
  import opened TransitSchedule
  import opened RouteWrapping

  /** A whole transit line on one link: no intermediate links, start link == end link. */
  predicate IsSingleLinkLoop(route: NetworkRoute) {
    |route.linkIds| == 0 && route.startLinkId == route.endLinkId
  }

  /** Fails while a stop is still pending, naming the vehicle and that stop. */
  function AssertAllStopsServed(nextStop: Option<TransitRouteStop>, vehicleId: Id): (r: Outcome<DriverError>)
    ensures r.Pass? <==> nextStop.None?
    ensures r.Fail? ==> r.error == NotYetAtLastStop(vehicleId, nextStop.value.stopFacilityId)
  {
    if nextStop.Some? then Fail(NotYetAtLastStop(vehicleId, nextStop.value.stopFacilityId)) else Pass
  }

  /**
   * The link to enter next: the intermediate link under the cursor, then the
   * end link, then nothing. A single-link loop has nothing to enter at all.
   * Past the end of the route it fails if a stop has not been served.
   */
  function ChooseNextLinkId(route: NetworkRoute, nextLinkIndex: nat, nextStop: Option<TransitRouteStop>,
                            vehicleId: Id): (r: Result<Option<Id>, DriverError>)
    ensures nextLinkIndex < |route.linkIds| ==> r == Success(Some(route.linkIds[nextLinkIndex]))
    ensures nextLinkIndex == |route.linkIds| && !IsSingleLinkLoop(route) ==> r == Success(Some(route.endLinkId))
    ensures nextLinkIndex == |route.linkIds| && IsSingleLinkLoop(route) ==> r == Success(None)
    ensures nextLinkIndex > |route.linkIds| ==> (r.Failure? <==> nextStop.Some?) && (r.Success? ==> r.value.None?)
  {
    var linkIds := route.linkIds;
    if nextLinkIndex < |linkIds| then Success(Some(linkIds[nextLinkIndex]))
    else if nextLinkIndex == |linkIds| then
      if |linkIds| == 0 && route.startLinkId == route.endLinkId then Success(None)
      else Success(Some(route.endLinkId))
    else
      match AssertAllStopsServed(nextStop, vehicleId)
      case Fail(e) => Failure(e)
      case Pass => Success(None)
  }

  /** The link the vehicle is on: start link before the first move, end link after the last. */
  function GetCurrentLinkId(route: NetworkRoute, nextLinkIndex: nat): (r: Id)
    ensures nextLinkIndex == 0 ==> r == route.startLinkId
    ensures 0 < nextLinkIndex <= |route.linkIds| ==> r == route.linkIds[nextLinkIndex - 1]
    ensures nextLinkIndex > |route.linkIds| ==> r == route.endLinkId
  {
    var currentLinkIndex := nextLinkIndex - 1;
    if currentLinkIndex < 0 then route.startLinkId
    else if currentLinkIndex >= |route.linkIds| then route.endLinkId
    else route.linkIds[currentLinkIndex]
  }

  /**
   * The links a driver with every stop served enters, one per node crossed,
   * from cursor `nextLinkIndex` until `ChooseNextLinkId` has nothing more.
   */
  function Drive(route: NetworkRoute, nextLinkIndex: nat): seq<Id>
    decreases |route.linkIds| + 1 - nextLinkIndex
  {
    if nextLinkIndex > |route.linkIds| then []
    else
      match ChooseNextLinkId(route, nextLinkIndex, None, "")
      case Success(Some(link)) => [link] + Drive(route, nextLinkIndex + 1)
      case _ => []
  }

  /**
   * Driving from any cursor position enters the remaining intermediate links
   * in order and then the end link, and a single-link loop enters nothing
   * (it never re-enters the link it is already on).
   */
  lemma {:induction false} DriveFollowsRoute(route: NetworkRoute, nextLinkIndex: nat)
    requires nextLinkIndex <= |route.linkIds|
    decreases |route.linkIds| - nextLinkIndex
    ensures Drive(route, nextLinkIndex) ==
              if IsSingleLinkLoop(route) then [] else route.linkIds[nextLinkIndex..] + [route.endLinkId]
  {
    if nextLinkIndex < |route.linkIds| {
      DriveFollowsRoute(route, nextLinkIndex + 1);
      assert route.linkIds[nextLinkIndex..] == [route.linkIds[nextLinkIndex]] + route.linkIds[nextLinkIndex + 1..];
    }
  }

  /** The whole drive from a freshly initialised cursor covers the route exactly. */
  lemma DriveFromStart(route: NetworkRoute)
    ensures Drive(route, 0) == if IsSingleLinkLoop(route) then [] else route.linkIds + [route.endLinkId]
  {
    DriveFollowsRoute(route, 0);
  }

  /** After crossing the node into the chosen link, the current link is the chosen one. */
  lemma ChosenLinkBecomesCurrent(route: NetworkRoute, nextLinkIndex: nat, nextStop: Option<TransitRouteStop>,
                                 vehicleId: Id, link: Id)
    requires ChooseNextLinkId(route, nextLinkIndex, nextStop, vehicleId) == Success(Some(link))
    ensures GetCurrentLinkId(route, nextLinkIndex + 1) == link
  {
  }

  /** Drivers sharing one route through their wrappers get identical routing answers. */
  lemma SharedRouteRoutesAlike(w1: NetworkRouteWrapper, w2: NetworkRouteWrapper, nextLinkIndex: nat,
                               nextStop: Option<TransitRouteStop>, vehicleId: Id)
    requires w1.delegate == w2.delegate
    ensures ChooseNextLinkId(w1.View(), nextLinkIndex, nextStop, vehicleId)
         == ChooseNextLinkId(w2.View(), nextLinkIndex, nextStop, vehicleId)
         == ChooseNextLinkId(w1.delegate, nextLinkIndex, nextStop, vehicleId)
    ensures GetCurrentLinkId(w1.View(), nextLinkIndex) == GetCurrentLinkId(w2.View(), nextLinkIndex)
         == GetCurrentLinkId(w1.delegate, nextLinkIndex)
  {
  }
}
