/**
 * `AbstractFilter`: the part every pipeline filter shares, the next element of
 * the pipeline (`mDataSink`, possibly null). A sink is any object; what it is
 * given is recorded, not executed: each `onData` call on it becomes a
 * `Delivery` holding the sample as it was at the call.
 */
module AbstractFilters {
  import opened Common
  import opened Devices
  import opened Sensors

  /**
   * One `onData` call on a sink. `Delivery` is a call on a network data sink,
   * with `sensitivity` `None` for the two-argument form `onData(origin, data)`;
   * `PlainDelivery` is the call `onData(data)` on a plain data sink.
   */
  datatype Delivery =
    | Delivery(sink: object, origin: Option<NetworkDevice>, sample: Sample, sensitivity: Option<real>)
    | PlainDelivery(sink: object, sample: Sample)

  class AbstractFilter {
    /** `mDataSink`; `None` stands for null. */
    var sink: Option<object>
    /** The calls made on the sink so far, oldest first. */
    var sent: seq<Delivery>

    /** `AbstractFilter(sink)` */
    constructor (sink: Option<object>)
      ensures this.sink == sink && sent == []
    {
      this.sink := sink;
      sent := [];
    }

    /** The no-argument constructor: no next element yet. */
    constructor Unlinked()
      ensures sink == None && sent == []
    {
      sink := None;
      sent := [];
    }

    /** `setDataSink`: replaces the next element and nothing else. */
    method SetDataSink(dataSink: Option<object>)
      modifies this
      ensures sink == dataSink && sent == old(sent)
    {
      sink := dataSink;
    }

    /** `hasNextPipelineElement`: a next element is set. */
    predicate HasNextPipelineElement()
      reads this
    {
      sink.Some?
    }

    /**
     * `forwardData`: without a next element nothing is forwarded and the
     * answer is false; otherwise the sink gets the data once, with the same
     * arguments, and the answer is true.
     */
    method ForwardData(origin: Option<NetworkDevice>, data: SensorData, sensitivity: real) returns (forwarded: bool)
      modifies this
      ensures sink == old(sink)
      ensures forwarded == old(HasNextPipelineElement())
      ensures forwarded ==> sent == old(sent) + [Delivery(sink.value, origin, data.Value(), Some(sensitivity))]
      ensures !forwarded ==> sent == old(sent)
    {
      if !HasNextPipelineElement() {
        return false;
      }
      sent := sent + [Delivery(sink.value, origin, data.Value(), Some(sensitivity))];
      return true;
    }

    /**
     * `mDataSink.onData(...)` called without the null check of `forwardData`,
     * as the filters of the server do: a missing sink throws
     * `NullPointerException`.
     */
    method CallSink(origin: Option<NetworkDevice>, data: SensorData, sensitivity: Option<real>) returns (r: Result<()>)
      modifies this
      ensures sink == old(sink)
      ensures r.Err? <==> old(sink).None?
      ensures r.Err? ==> r.error == NullPointer && sent == old(sent)
      ensures r.Ok? ==> sent == old(sent) + [Delivery(sink.value, origin, data.Value(), sensitivity)]
    {
      if sink.None? {
        return Err(NullPointer);
      }
      sent := sent + [Delivery(sink.value, origin, data.Value(), sensitivity)];
      return Ok(());
    }
  }
}
