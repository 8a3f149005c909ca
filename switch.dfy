/** `Switch`: passes every sample on to one of two sinks, chosen by a flag. */
module Switches {
  import opened Common
  import opened Devices
  import opened Sensors
  import opened AbstractFilters

  class Switch {
    /** `mFirstSink`, `mSecondSink`; `None` stands for null. */
    var first: Option<object>
    var second: Option<object>
    /** `mForwardToFirstSink` */
    var toFirst: bool
    /** The calls made on either sink so far, oldest first. */
    var sent: seq<Delivery>

    /** `Switch(firstSink, secondSink, startWithFirst)` */
    constructor (firstSink: Option<object>, secondSink: Option<object>, startWithFirst: bool)
      ensures first == firstSink && second == secondSink && toFirst == startWithFirst && sent == []
    {
      first := firstSink;
      second := secondSink;
      toFirst := startWithFirst;
      sent := [];
    }

    /** `setFirst`: replaces the first sink only. */
    method SetFirst(firstSink: Option<object>)
      modifies this
      ensures first == firstSink && second == old(second) && toFirst == old(toFirst) && sent == old(sent)
    {
      first := firstSink;
    }

    /** `setSecond`: replaces the second sink only. */
    method SetSecond(secondSink: Option<object>)
      modifies this
      ensures second == secondSink && first == old(first) && toFirst == old(toFirst) && sent == old(sent)
    {
      second := secondSink;
    }

    /** `routeToFirst(routeToFirst)`: sets the route and nothing else. */
    method RouteTo(routeToFirst: bool)
      modifies this
      ensures toFirst == routeToFirst && first == old(first) && second == old(second) && sent == old(sent)
    {
      toFirst := routeToFirst;
    }

    /** `routeToFirst()` */
    method RouteToFirst()
      modifies this
      ensures toFirst && first == old(first) && second == old(second) && sent == old(sent)
    {
      RouteTo(true);
    }

    /** `routeToSecond()` */
    method RouteToSecond()
      modifies this
      ensures !toFirst && first == old(first) && second == old(second) && sent == old(sent)
    {
      RouteTo(false);
    }

    /**
     * `onData`: the sample goes, unchanged and with the same origin and
     * sensitivity, to the first sink if the flag is set and to the second
     * otherwise; a null sink on that route throws `NullPointerException`.
     */
    method OnData(origin: Option<NetworkDevice>, data: SensorData, sensitivity: real) returns (r: Result<()>)
      modifies this
      ensures first == old(first) && second == old(second) && toFirst == old(toFirst)
      ensures var target := if toFirst then first else second;
        (r.Ok? <==> target.Some?) &&
        (r.Ok? ==> sent == old(sent) + [Delivery(target.value, origin, data.Value(), Some(sensitivity))]) &&
        (r.Err? ==> r.error == NullPointer && sent == old(sent))
    {
      var target := if toFirst then first else second;
      if target.None? {
        return Err(NullPointer);
      }
      sent := sent + [Delivery(target.value, origin, data.Value(), Some(sensitivity))];
      return Ok(());
    }
  }
}
