/** `AbsoluteFilter`: replaces every negative value of a sample by its negation. */
module AbsoluteFilters {
  import opened Common
  import opened Devices
  import opened Sensors
  import opened AbstractFilters

  /** The sample with each negative value negated. */
  function Abs(data: seq<real>): (r: seq<real>)
    ensures |r| == |data|
  {
    seq(|data|, i requires 0 <= i < |data| => if data[i] < 0.0 then -data[i] else data[i])
  }

  /** Every result value is non-negative and of the same magnitude as the input value. */
  lemma AbsNonNegative(data: seq<real>)
    ensures forall i | 0 <= i < |data| :: Abs(data)[i] >= 0.0
    ensures forall i | 0 <= i < |data| :: Abs(data)[i] == data[i] || Abs(data)[i] == -data[i]
  {
  }

  /** Non-negative values are kept; only negative ones change. */
  lemma AbsKeepsNonNegative(data: seq<real>)
    ensures forall i | 0 <= i < |data| :: (Abs(data)[i] == data[i] <==> data[i] >= 0.0)
  {
  }

  /** Applying the filter twice gives the same as once. */
  lemma AbsIdempotent(data: seq<real>)
    ensures Abs(Abs(data)) == Abs(data)
  {
  }

  class AbsoluteFilter {
    /** The next element of the pipeline. */
    const base: AbstractFilter

    /** The implicit constructor: no next element yet. */
    constructor ()
      ensures fresh(base) && base.sink == None && base.sent == []
    {
      base := new AbstractFilter.Unlinked();
    }

    /**
     * `onData`: makes the values non-negative in place, then passes the sample
     * on with the same origin and sensitivity; a missing sink throws
     * `NullPointerException` after the values have been changed.
     */
    method OnData(origin: Option<NetworkDevice>, sensorData: SensorData, sensitivity: real) returns (r: Result<()>)
      modifies sensorData.data, base
      ensures sensorData.data[..] == Abs(old(sensorData.data[..]))
      ensures base.sink == old(base.sink)
      ensures r.Err? <==> base.sink.None?
      ensures r.Err? ==> r.error == NullPointer && base.sent == old(base.sent)
      ensures r.Ok? ==> base.sent == old(base.sent) + [Delivery(base.sink.value, origin, sensorData.Value(), Some(sensitivity))]
    {
      var data := sensorData.data;
      for i := 0 to data.Length
        modifies data
        invariant data[..i] == Abs(old(data[..]))[..i]
        invariant data[i..] == old(data[..])[i..]
      {
        if data[i] < 0.0 {
          data[i] := -data[i];
        }
      }
      r := base.CallSink(origin, sensorData, Some(sensitivity));
    }
  }
}
