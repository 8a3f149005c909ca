/**
 * `MinimumAmplitudeChangeFilter`: holds the output still until the input has
 * changed enough. A sample that differs too little from the stored value is
 * replaced by it; otherwise it becomes the new stored value.
 */
module MinimumAmplitudeChangeFilters {
  import opened Common
  import opened Devices
  import opened Sensors
  import opened AbstractFilters
  import opened DifferenceThresholdFilters

  class MinimumAmplitudeChangeFilter {
    /** The next element of the pipeline. */
    const base: AbstractFilter
    /** `mMinimumChange` */
    const minimum: real
    /** `mLastValue`; `None` before the first sample. */
    var last: Option<seq<real>>

    constructor (dataSink: Option<object>, minimumChange: real)
      ensures fresh(base) && base.sink == dataSink && base.sent == []
      ensures minimum == minimumChange && last == None
    {
      base := new AbstractFilter(dataSink);
      minimum := minimumChange;
      last := None;
    }

    /**
     * `onData`: too small a change copies the stored value over the sample,
     * otherwise the sample is copied into the stored value; either copy
     * throws `ArrayIndexOutOfBoundsException` when the sample is shorter than
     * the stored value. The sample is then offered to `forwardData`, which
     * drops it when no sink is set.
     */
    method OnData(origin: Option<NetworkDevice>, sensorData: SensorData, sensitivity: real) returns (r: Result<()>)
      modifies this, sensorData.data, base
      ensures base.sink == old(base.sink)
      ensures var stored := old(LastOrZeros(last, sensorData.data.Length));
        var data := old(sensorData.data[..]);
        if |data| < |stored| then
          r == Err(IndexOutOfBounds) && last == Some(stored) && unchanged(sensorData.data)
        else if Change(data, stored) < minimum then
          last == Some(stored) && sensorData.data[..] == stored + data[|stored|..]
        else
          last == Some(data[..|stored|]) && unchanged(sensorData.data)
      // the call succeeds exactly when neither copy runs past the sample, with or without a sink
      ensures r.Ok? <==> |old(LastOrZeros(last, sensorData.data.Length))| <= old(sensorData.data.Length)
      ensures r.Ok? ==> last.Some? && sensorData.data[..|last.value|] == last.value
      ensures r.Ok? && base.sink.Some? ==> base.sent == old(base.sent) + [Delivery(base.sink.value, origin, sensorData.Value(), Some(sensitivity))]
      ensures r.Err? || base.sink.None? ==> base.sent == old(base.sent)
    {
      var data := sensorData.data;
      if last.None? {
        last := Some(seq(data.Length, _ => 0.0));
      }
      var stored := last.value;
      var change := CalculateChange(data, stored);
      if data.Length < |stored| {
        return Err(IndexOutOfBounds);
      }
      if change < minimum {
        forall i | 0 <= i < |stored| {
          data[i] := stored[i];
        }
      } else {
        last := Some(data[..|stored|]);
      }
      var _ := base.ForwardData(origin, sensorData, sensitivity);
      return Ok(());
    }
  }
}
