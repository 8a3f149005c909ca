/**
 * `ThresholdingFilter`: zeroes a whole sample when the magnitude of one
 * watched axis stays below a minimum.
 */
module ThresholdingFilters {
  import opened Common
  import opened Devices
  import opened Sensors
  import opened AbstractFilters

  /** The axes of the filter base: x is 0, y is 1, z is 2. */
  const XAXIS: int := 0
  const YAXIS: int := 1
  const ZAXIS: int := 2

  /** The axis the constructor accepts for a parameter, or `InvalidParameterException`. */
  function AxisOf(axis: int): (r: Result<int>)
    ensures r.Ok? <==> 0 <= axis <= 2
    ensures r.Ok? ==> r.value == axis
    ensures r.Err? ==> r.error == InvalidParameter
  {
    if axis == 0 then Ok(XAXIS)
    else if axis == 1 then Ok(YAXIS)
    else if axis == 2 then Ok(ZAXIS)
    else Err(InvalidParameter)
  }

  function Magnitude(x: real): real {
    if x < 0.0 then -x else x
  }

  /** The sample after the check: all zeros when the watched value is too small, else unchanged. */
  function Threshold(data: seq<real>, axis: nat, minimum: real): (r: seq<real>)
    requires axis < |data|
    ensures |r| == |data|
    ensures Magnitude(data[axis]) >= minimum ==> r == data
    ensures Magnitude(data[axis]) < minimum ==> forall i | 0 <= i < |r| :: r[i] == 0.0
  {
    if Magnitude(data[axis]) < minimum then seq(|data|, _ => 0.0) else data
  }

  /** Zeroing is final: a zeroed sample passes the check unchanged or is zeroed again. */
  lemma ThresholdIdempotent(data: seq<real>, axis: nat, minimum: real)
    requires axis < |data|
    ensures Threshold(Threshold(data, axis, minimum), axis, minimum) == Threshold(data, axis, minimum)
  {
  }

  class ThresholdingFilter {
    /** The next element of the pipeline. */
    const base: AbstractFilter
    /** `mMinimumAmplitude` */
    const minimum: real
    /** `mAxis`: 0, 1 or 2. */
    const axis: nat

    /** The constructor once the axis has been checked. */
    constructor (dataSink: Option<object>, minimumAmplitude: real, axis: int)
      requires AxisOf(axis).Ok?
      ensures fresh(base) && base.sink == dataSink && base.sent == []
      ensures minimum == minimumAmplitude && this.axis == axis
    {
      base := new AbstractFilter(dataSink);
      minimum := minimumAmplitude;
      this.axis := AxisOf(axis).value;
    }

    /**
     * `onData(origin, sensorData)`: zeroes every value when the watched one is
     * too small, then passes the sample on through the two-argument
     * `onData` of the sink. A sample without the watched axis throws
     * `ArrayIndexOutOfBoundsException`; a missing sink throws
     * `NullPointerException` after the check.
     */
    method OnData(origin: Option<NetworkDevice>, sensorData: SensorData) returns (r: Result<()>)
      modifies sensorData.data, base
      ensures base.sink == old(base.sink)
      ensures axis >= sensorData.data.Length ==> r == Err(IndexOutOfBounds) && unchanged(sensorData.data) && base.sent == old(base.sent)
      ensures axis < sensorData.data.Length ==> sensorData.data[..] == Threshold(old(sensorData.data[..]), axis, minimum)
      ensures axis < sensorData.data.Length && base.sink.None? ==> r == Err(NullPointer) && base.sent == old(base.sent)
      ensures r.Ok? <==> axis < sensorData.data.Length && base.sink.Some?
      ensures r.Ok? ==> base.sent == old(base.sent) + [Delivery(base.sink.value, origin, sensorData.Value(), None)]
    {
      var data := sensorData.data;
      if axis >= data.Length {
        return Err(IndexOutOfBounds);
      }
      if Magnitude(data[axis]) < minimum {
        forall i | 0 <= i < data.Length {
          data[i] := 0.0;
        }
      }
      r := base.CallSink(origin, sensorData, None);
    }
  }

  /** `new ThresholdingFilter(dataSink, minimumAmplitude, axis)`: an axis other than 0, 1 or 2 throws `InvalidParameterException`. */
  method NewThresholdingFilter(dataSink: Option<object>, minimumAmplitude: real, axis: int) returns (r: Result<ThresholdingFilter>)
    ensures r.Ok? <==> 0 <= axis <= 2
    ensures r.Err? ==> r.error == InvalidParameter
    ensures r.Ok? ==> fresh(r.value) && r.value.axis == axis && r.value.minimum == minimumAmplitude && r.value.base.sink == dataSink
  {
    var checked := AxisOf(axis);
    if checked.Err? {
      return Err(checked.error);
    }
    var f := new ThresholdingFilter(dataSink, minimumAmplitude, axis);
    return Ok(f);
  }
}
