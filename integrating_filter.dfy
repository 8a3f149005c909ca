/**
 * `IntegratingFilter`: keeps a running sum of the x, y and z values of every
 * sample seen since the last reset and replaces those three values by the
 * sums.
 */
module IntegratingFilters {
  import opened Common
  import opened Devices
  import opened Sensors
  import opened AbstractFilters

  /** The axes of the filter base: x is 0, y is 1, z is 2. */
  const XAXIS: nat := 0
  const YAXIS: nat := 1
  const ZAXIS: nat := 2

  class IntegratingFilter {
    /** The next element of the pipeline. */
    const base: AbstractFilter
    /** `mSumOfRotationX`, `mSumOfRotationY`, `mSumOfRotationZ` */
    var sumX: real
    var sumY: real
    var sumZ: real

    /** `IntegratingFilter(sink)`: all sums start at 0. */
    constructor (sink: Option<object>)
      ensures fresh(base) && base.sink == sink && base.sent == []
      ensures sumX == 0.0 && sumY == 0.0 && sumZ == 0.0
    {
      base := new AbstractFilter(sink);
      sumX, sumY, sumZ := 0.0, 0.0, 0.0;
    }

    /**
     * `onData`: adds x, y and z to the sums and writes the sums back into the
     * sample, then passes it on. The sums are updated one after another, so a
     * sample with fewer than three values updates the sums of the values it
     * has and then throws `ArrayIndexOutOfBoundsException` before anything is
     * written back. A missing sink throws `NullPointerException` at the end.
     */
    method OnData(origin: Option<NetworkDevice>, sensorData: SensorData, sensitivity: real) returns (r: Result<()>)
      modifies this, sensorData.data, base
      ensures sumX == old(sumX) + (if sensorData.data.Length > XAXIS then old(sensorData.data[XAXIS]) else 0.0)
      ensures sumY == old(sumY) + (if sensorData.data.Length > YAXIS then old(sensorData.data[YAXIS]) else 0.0)
      ensures sumZ == old(sumZ) + (if sensorData.data.Length > ZAXIS then old(sensorData.data[ZAXIS]) else 0.0)
      ensures base.sink == old(base.sink)
      ensures sensorData.data.Length <= ZAXIS ==>
        r == Err(IndexOutOfBounds) && unchanged(sensorData.data) && base.sent == old(base.sent)
      ensures sensorData.data.Length > ZAXIS ==>
        sensorData.data[..] == [sumX, sumY, sumZ] + old(sensorData.data[3..])
      ensures sensorData.data.Length > ZAXIS && base.sink.None? ==> r == Err(NullPointer) && base.sent == old(base.sent)
      ensures r.Ok? <==> sensorData.data.Length > ZAXIS && base.sink.Some?
      ensures r.Ok? ==> base.sent == old(base.sent) + [Delivery(base.sink.value, origin, sensorData.Value(), Some(sensitivity))]
    {
      var data := sensorData.data;
      if data.Length <= XAXIS {
        return Err(IndexOutOfBounds);
      }
      sumX := sumX + data[XAXIS];
      if data.Length <= YAXIS {
        return Err(IndexOutOfBounds);
      }
      sumY := sumY + data[YAXIS];
      if data.Length <= ZAXIS {
        return Err(IndexOutOfBounds);
      }
      sumZ := sumZ + data[ZAXIS];
      data[XAXIS] := sumX;
      data[YAXIS] := sumY;
      data[ZAXIS] := sumZ;
      r := base.CallSink(origin, sensorData, Some(sensitivity));
    }

    /** `resetFilter`: all three sums back to 0. */
    method ResetFilter()
      modifies this
      ensures sumX == 0.0 && sumY == 0.0 && sumZ == 0.0
    {
      sumX, sumY, sumZ := 0.0, 0.0, 0.0;
    }
  }

  /** After a reset the next sample passes the filter with its values unchanged. */
  method ResetThenOnData(f: IntegratingFilter, origin: Option<NetworkDevice>, sensorData: SensorData, sensitivity: real)
    returns (r: Result<()>)
    requires sensorData.data.Length >= 3
    modifies f, sensorData.data, f.base
    ensures sensorData.data[..] == old(sensorData.data[..])
  {
    f.ResetFilter();
    r := f.OnData(origin, sensorData, sensitivity);
    assert sensorData.data[..] == old(sensorData.data[..3]) + old(sensorData.data[3..]);
  }
}
