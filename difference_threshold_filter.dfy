/**
 * `DifferenceThresholdFilter`: zeroes a sample unless it differs enough from
 * the last sample that was let through; the change is the sum of the absolute
 * differences of the values.
 */
module DifferenceThresholdFilters {
  import opened Common
  import opened Devices
  import opened Sensors
  import opened AbstractFilters

  function Magnitude(x: real): (m: real)
    ensures m >= 0.0 && (m == x || m == -x)
  {
    if x < 0.0 then -x else x
  }

  function Min(a: int, b: int): int {
    if a < b then a else b
  }

  /** The sum of `|b[i] - a[i]|` over the first `n` positions. */
  function ChangeUpTo(a: seq<real>, b: seq<real>, n: nat): real
    requires n <= |a| && n <= |b|
  {
    if n == 0 then 0.0 else ChangeUpTo(a, b, n - 1) + Magnitude(b[n - 1] - a[n - 1])
  }

  /** `calculateChange(a, b)`: the sum of absolute differences over the positions both arrays have. */
  function Change(a: seq<real>, b: seq<real>): real {
    ChangeUpTo(a, b, Min(|a|, |b|))
  }

  /** No change is negative, and a change of 0 means the compared values are equal. */
  lemma {:induction false} ChangeUpToZero(a: seq<real>, b: seq<real>, n: nat)
    requires n <= |a| && n <= |b|
    ensures ChangeUpTo(a, b, n) >= 0.0
    ensures ChangeUpTo(a, b, n) == 0.0 <==> a[..n] == b[..n]
  {
    if n > 0 {
      ChangeUpToZero(a, b, n - 1);
      assert a[..n] == a[..n - 1] + [a[n - 1]] && b[..n] == b[..n - 1] + [b[n - 1]];
      if a[..n] == b[..n] {
        assert a[..n - 1] == a[..n][..n - 1] && b[..n - 1] == b[..n][..n - 1];
        assert a[n - 1] == a[..n][n - 1] && b[n - 1] == b[..n][n - 1];
      }
    }
  }

  /** The change is non-negative and 0 exactly when the common prefix agrees. */
  lemma ChangeZeroIffEqual(a: seq<real>, b: seq<real>)
    ensures Change(a, b) >= 0.0
    ensures Change(a, b) == 0.0 <==> a[..Min(|a|, |b|)] == b[..Min(|a|, |b|)]
  {
    ChangeUpToZero(a, b, Min(|a|, |b|));
  }

  /** The change does not depend on the order of the arguments. */
  lemma {:induction false} ChangeSymmetric(a: seq<real>, b: seq<real>, n: nat)
    requires n <= |a| && n <= |b|
    ensures ChangeUpTo(a, b, n) == ChangeUpTo(b, a, n)
  {
    if n > 0 {
      ChangeSymmetric(a, b, n - 1);
    }
  }

  /** `calculateChange`: the loop over the positions both arrays have. */
  method CalculateChange(dataA: array<real>, dataB: seq<real>) returns (change: real)
    ensures change == Change(dataA[..], dataB)
  {
    change := 0.0;
    var i := 0;
    while i < dataA.Length && i < |dataB|
      invariant 0 <= i <= Min(dataA.Length, |dataB|)
      invariant change == ChangeUpTo(dataA[..], dataB, i)
    {
      change := change + Magnitude(dataB[i] - dataA[i]);
      i := i + 1;
    }
  }

  /** The stored value the next sample is compared with: zeros of the sample's length before the first sample. */
  function LastOrZeros(last: Option<seq<real>>, n: nat): (l: seq<real>)
    ensures last.Some? ==> l == last.value
    ensures last.None? ==> |l| == n && forall i | 0 <= i < n :: l[i] == 0.0
  {
    if last.Some? then last.value else seq(n, _ => 0.0)
  }

  class DifferenceThresholdFilter {
    /** The next element of the pipeline. */
    const base: AbstractFilter
    /** `mMinimumChange` */
    const minimum: real
    /** `mLastValue`; `None` before the first sample. */
    var last: Option<seq<real>>

    constructor (dataSink: Option<object>, minimumChange: real)
      ensures fresh(base) && base.sink == dataSink && base.sent == []
      ensures minimum == minimumChange && last == None
    {
      base := new AbstractFilter(dataSink);
      minimum := minimumChange;
      last := None;
    }

    /**
     * `onData`: compares the sample with the stored value. Too small a change
     * zeroes the sample and keeps the stored value; otherwise the stored value
     * takes over the sample's values (copying throws
     * `ArrayIndexOutOfBoundsException` when the sample is shorter than the
     * stored value). Then the sample is passed on; a missing sink throws
     * `NullPointerException`.
     */
    method OnData(origin: Option<NetworkDevice>, sensorData: SensorData, sensitivity: real) returns (r: Result<()>)
      modifies this, sensorData.data, base
      ensures base.sink == old(base.sink)
      ensures var stored := old(LastOrZeros(last, sensorData.data.Length));
        var data := old(sensorData.data[..]);
        if Change(data, stored) < minimum then
          last == Some(stored) && forall i | 0 <= i < sensorData.data.Length :: sensorData.data[i] == 0.0
        else if |data| < |stored| then
          last == Some(stored) && r == Err(IndexOutOfBounds) && unchanged(sensorData.data) && base.sent == old(base.sent)
        else
          last == Some(data[..|stored|]) && unchanged(sensorData.data)
      // the call succeeds exactly when a sink is set and no copy runs past the sample
      ensures var stored := old(LastOrZeros(last, sensorData.data.Length));
        r.Ok? <==> base.sink.Some? && (Change(old(sensorData.data[..]), stored) < minimum || |stored| <= old(sensorData.data.Length))
      ensures r != Err(IndexOutOfBounds) && base.sink.None? ==> r == Err(NullPointer) && base.sent == old(base.sent)
      ensures r.Ok? ==> base.sink.Some? && base.sent == old(base.sent) + [Delivery(base.sink.value, origin, sensorData.Value(), Some(sensitivity))]
      ensures r.Err? ==> base.sent == old(base.sent)
    {
      var data := sensorData.data;
      if last.None? {
        last := Some(seq(data.Length, _ => 0.0));
      }
      var stored := last.value;
      var change := CalculateChange(data, stored);
      if change < minimum {
        forall i | 0 <= i < data.Length {
          data[i] := 0.0;
        }
      } else {
        if data.Length < |stored| {
          return Err(IndexOutOfBounds);
        }
        last := Some(data[..|stored|]);
      }
      r := base.CallSink(origin, sensorData, Some(sensitivity));
    }
  }
}
