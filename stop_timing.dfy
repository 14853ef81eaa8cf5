/**
 * The time arithmetic of a transit driver at a stop: the schedule hold that
 * stretches the dwell time of an early vehicle, and the arrival and departure
 * delays reported in the stop events.
 */
module StopTiming {
  import opened Doubles
  import opened TransitSchedule

  /** `Time.UNDEFINED_TIME`, an offset that was never set. */
  const UNDEFINED_TIME: Double := NEGATIVE_INFINITY

  /** NaN and the infinities are the "bad" doubles. */
  function IsBadDouble(d: Double): (bad: bool)
    ensures bad <==> !d.Finite?
  {
    IsNaN(d) || IsInfinite(d)
  }

  /** The scheduled departure at `stop` of the run that started at `activityEndTime`. */
  function EarliestDepartureTime(activityEndTime: Double, stop: TransitRouteStop): Double {
    Add(activityEndTime, stop.departureOffset)
  }

  /** The vehicle must wait at `stop`: it would otherwise leave before its scheduled departure. */
  predicate HoldApplies(stop: TransitRouteStop, activityEndTime: Double, now: real, stopTime: real) {
    && stop.awaitDepartureTime
    && stop.departureOffset != UNDEFINED_TIME
    && Less(Finite(now + stopTime), EarliestDepartureTime(activityEndTime, stop))
  }

  /**
   * The stop time, stretched when the vehicle waits for its scheduled departure.
   * A held vehicle stays strictly longer and leaves no earlier than scheduled;
   * otherwise the stop time is unchanged.
   */
  function LongerStopTimeIfWeAreAheadOfSchedule(stop: TransitRouteStop, activityEndTime: Double,
                                                now: real, stopTime: real): (r: Double)
    ensures !HoldApplies(stop, activityEndTime, now, stopTime) ==> r == Finite(stopTime)
    ensures HoldApplies(stop, activityEndTime, now, stopTime) ==>
              r == Sub(EarliestDepartureTime(activityEndTime, stop), Finite(now))
    ensures HoldApplies(stop, activityEndTime, now, stopTime) ==>
              Less(Finite(stopTime), r) && !Less(Add(Finite(now), r), EarliestDepartureTime(activityEndTime, stop))
  {
    if stop.awaitDepartureTime && stop.departureOffset != UNDEFINED_TIME then
      var earliestDepTime := EarliestDepartureTime(activityEndTime, stop);
      if Less(Finite(now + stopTime), earliestDepTime) then Sub(earliestDepTime, Finite(now))
      else Finite(stopTime)
    else
      Finite(stopTime)
  }

  /**
   * The stop time a driver ends up with: the hold is tried only when boarding
   * and alighting need no time. The result is zero, which makes the vehicle
   * depart at once, exactly when nobody needed time and no hold applies.
   */
  function StopTimeAfterHold(stop: TransitRouteStop, activityEndTime: Double, now: real,
                             stopTime: real): (r: Double)
    ensures stopTime != 0.0 ==> r == Finite(stopTime)
    ensures r == Finite(0.0) <==> stopTime == 0.0 && !HoldApplies(stop, activityEndTime, now, 0.0)
  {
    if stopTime == 0.0 then LongerStopTimeIfWeAreAheadOfSchedule(stop, activityEndTime, now, stopTime)
    else Finite(stopTime)
  }

  /**
   * A vehicle that waits for its schedule at a stop with a defined departure
   * offset stays for the longer of its stop time and the time left until the
   * scheduled departure: it never leaves before that departure, and never
   * sooner than boarding and alighting allow.
   */
  lemma HoldKeepsSchedule(stop: TransitRouteStop, activityEndTime: Double, now: real, stopTime: real)
    requires stopTime >= 0.0
    requires stop.awaitDepartureTime && stop.departureOffset.Finite? && activityEndTime.Finite?
    ensures var untilScheduled := activityEndTime.v + stop.departureOffset.v - now;
            LongerStopTimeIfWeAreAheadOfSchedule(stop, activityEndTime, now, stopTime)
              == Finite(if untilScheduled > stopTime then untilScheduled else stopTime)
  {
  }

  /** A vehicle that is on time or late gets no extra dwell time. */
  lemma NoHoldWhenNotEarly(stop: TransitRouteStop, activityEndTime: Double, now: real, stopTime: real)
    requires EarliestDepartureTime(activityEndTime, stop).Finite?
    requires now + stopTime >= EarliestDepartureTime(activityEndTime, stop).v
    ensures LongerStopTimeIfWeAreAheadOfSchedule(stop, activityEndTime, now, stopTime) == Finite(stopTime)
  {
  }

  /**
   * The arrival delay. The source's test for a usable arrival offset,
   * `!(isNaN(offset) && isInfinite(offset))`, holds for every double, so the
   * arrival offset is always subtracted and the departure-offset fallback is
   * never taken: the delay is NaN or infinite unless both the departure time
   * and the arrival offset are finite.
   */
  function ArrivalDelay(now: real, departureTime: Double, stop: TransitRouteStop): (r: Double)
    ensures r == Sub(Sub(Finite(now), departureTime), stop.arrivalOffset)
    ensures r.Finite? <==> departureTime.Finite? && stop.arrivalOffset.Finite?
    ensures r.Finite? ==> r.v == now - departureTime.v - stop.arrivalOffset.v
  {
    var delay := Sub(Finite(now), departureTime);
    if !(IsNaN(stop.arrivalOffset) && IsInfinite(stop.arrivalOffset)) then Sub(delay, stop.arrivalOffset)
    else if !(IsNaN(stop.departureOffset) && IsInfinite(stop.departureOffset)) then Sub(delay, stop.departureOffset)
    else delay
  }

  /** The schedule offset a departure delay is measured against: departure, else arrival, else none. */
  function DepartureReferenceOffset(stop: TransitRouteStop): real {
    if !IsBadDouble(stop.departureOffset) then stop.departureOffset.v
    else if !IsBadDouble(stop.arrivalOffset) then stop.arrivalOffset.v
    else 0.0
  }

  /**
   * The departure delay, always a finite number: the time since the run's
   * departure (0 when that time is bad) less the stop's departure offset,
   * falling back to its arrival offset, and to nothing when both are bad.
   */
  function DepartureDelay(now: real, departureTime: Double, stop: TransitRouteStop): (r: Double)
    ensures r.Finite?
    ensures !IsBadDouble(departureTime) ==> r.v == now - departureTime.v - DepartureReferenceOffset(stop)
    ensures IsBadDouble(departureTime) ==> r.v == -DepartureReferenceOffset(stop)
  {
    var delay := if IsBadDouble(departureTime) then Finite(0.0) else Sub(Finite(now), departureTime);
    if !IsBadDouble(stop.departureOffset) then Sub(delay, stop.departureOffset)
    else if !IsBadDouble(stop.arrivalOffset) then Sub(delay, stop.arrivalOffset)
    else delay
  }

  /** Leaving exactly at the scheduled departure time reports zero delay. */
  lemma OnTimeDepartureHasNoDelay(now: real, departureTime: Double, stop: TransitRouteStop)
    requires departureTime.Finite? && stop.departureOffset.Finite?
    requires now == departureTime.v + stop.departureOffset.v
    ensures DepartureDelay(now, departureTime, stop) == Finite(0.0)
  {
  }

  /** With a finite run departure time, each second later is one second more delay, on arrival and departure. */
  lemma DelayGrowsWithLateness(now: real, later: real, departureTime: Double, stop: TransitRouteStop)
    requires departureTime.Finite? && stop.arrivalOffset.Finite?
    ensures ArrivalDelay(later, departureTime, stop).v - ArrivalDelay(now, departureTime, stop).v == later - now
    ensures DepartureDelay(later, departureTime, stop).v - DepartureDelay(now, departureTime, stop).v == later - now
  {
  }
}
