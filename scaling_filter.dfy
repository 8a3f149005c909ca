/**
 * `ScalingFilter`: clamps every value of a sample to the source range
 * [-source, source] and then scales it by target / source, so that the
 * source range is mapped onto the target range.
 */
module ScalingFilters {
  import opened Common
  import opened Devices
  import opened Sensors
  import opened AbstractFilters

  /** The default of both ranges. */
  const DefaultRange: real := 100.0

  /** One value of `normalize`: clamped to [-source, source], then scaled. */
  function Scale(x: real, target: real, source: real): real
    requires source != 0.0
  {
    var clamped := if x < -source then -source else if x > source then source else x;
    clamped * (target / source)
  }

  /** `normalize` on a whole sample. */
  function Normalize(data: seq<real>, target: real, source: real): (r: seq<real>)
    requires source != 0.0
    ensures |r| == |data|
  {
    seq(|data|, i requires 0 <= i < |data| => Scale(data[i], target, source))
  }

  /** For positive ranges every result lies in the target range. */
  lemma ScaleBounded(x: real, target: real, source: real)
    requires source > 0.0 && target > 0.0
    ensures -target <= Scale(x, target, source) <= target
  {
    var f := target / source;
    assert f > 0.0;
    assert source * f == target;
    var clamped := if x < -source then -source else if x > source then source else x;
    assert -source * f <= clamped * f <= source * f;
  }

  /** A value inside the source range is only scaled; values beyond it give the ends of the target range. */
  lemma ScaleInsideAndOutside(x: real, target: real, source: real)
    requires source > 0.0
    ensures -source <= x <= source ==> Scale(x, target, source) == x * (target / source)
    ensures x > source ==> Scale(x, target, source) == target
    ensures x < -source ==> Scale(x, target, source) == -target
  {
  }

  /** With equal ranges, as the one-argument constructor sets them, the filter only clamps. */
  lemma EqualRangesClamp(data: seq<real>)
    ensures forall i | 0 <= i < |data| ::
      -DefaultRange <= Normalize(data, DefaultRange, DefaultRange)[i] <= DefaultRange
    ensures forall i | 0 <= i < |data| && -DefaultRange <= data[i] <= DefaultRange ::
      Normalize(data, DefaultRange, DefaultRange)[i] == data[i]
  {
  }

  class ScalingFilter {
    /** The next element of the pipeline. */
    const base: AbstractFilter
    /** `mTargetRange` */
    var target: real
    /** `mSourceRange` */
    var source: real

    /** `ScalingFilter(targetRange, sourceRange, sink)` */
    constructor (targetRange: real, sourceRange: real, sink: Option<object>)
      ensures fresh(base) && base.sink == sink && base.sent == []
      ensures target == targetRange && source == sourceRange
    {
      base := new AbstractFilter(sink);
      target := targetRange;
      source := sourceRange;
    }

    /** `ScalingFilter(sink)`: both ranges 100. */
    constructor WithDefaultRanges(sink: Option<object>)
      ensures fresh(base) && base.sink == sink && base.sent == []
      ensures target == DefaultRange && source == DefaultRange
    {
      base := new AbstractFilter(sink);
      target := DefaultRange;
      source := DefaultRange;
    }

    /** `setSourceRange` */
    method SetSourceRange(range: real)
      modifies this
      ensures source == range && target == old(target)
    {
      source := range;
    }

    /** `setTargetRange` */
    method SetTargetRange(range: real)
      modifies this
      ensures target == range && source == old(source)
    {
      target := range;
    }

    /** `normalize`: clamps and scales the array in place. */
    method NormalizeInPlace(data: array<real>)
      requires source != 0.0
      modifies data
      ensures data[..] == Normalize(old(data[..]), target, source)
    {
      var factor := target / source;
      for i := 0 to data.Length
        invariant data[..i] == Normalize(old(data[..]), target, source)[..i]
        invariant data[i..] == old(data[..])[i..]
      {
        var x := data[i];
        if x < -source {
          x := -source;
        } else if x > source {
          x := source;
        }
        data[i] := x * factor;
        assert data[i] == Scale(old(data[i]), target, source);
      }
    }

    /**
     * `onData`: normalises the sample in place and passes it on; the
     * sensitivity is passed on unchanged. A missing sink throws
     * `NullPointerException` after the values have been changed.
     */
    method OnData(origin: Option<NetworkDevice>, sensorData: SensorData, sensitivity: real) returns (r: Result<()>)
      requires source != 0.0
      modifies sensorData.data, base
      ensures sensorData.data[..] == Normalize(old(sensorData.data[..]), target, source)
      ensures base.sink == old(base.sink)
      ensures r.Err? <==> base.sink.None?
      ensures r.Err? ==> r.error == NullPointer && base.sent == old(base.sent)
      ensures r.Ok? ==> base.sent == old(base.sent) + [Delivery(base.sink.value, origin, sensorData.Value(), Some(sensitivity))]
    {
      NormalizeInPlace(sensorData.data);
      r := base.CallSink(origin, sensorData, Some(sensitivity));
    }
  }
}
