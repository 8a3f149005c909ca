/**
 * `AveragingFilter`: replaces each sample's values by the average of that
 * sample and the samples before it, over a window of fixed length that starts
 * out filled with `{0, 0, 0}`.
 */
module AveragingFilters {
  import opened Common
  import opened Devices
  import opened Sensors
  import opened AbstractFilters
  import opened RingBuffers

  /** Every entry of the window has at least `n` components. */
  predicate Covers(w: seq<seq<real>>, n: nat) {
    forall k | 0 <= k < |w| :: n <= |w[k]|
  }

  /** Component `j` summed over the entries of the window. */
  function ColumnSum(w: seq<seq<real>>, j: nat): real
    requires Covers(w, j + 1)
  {
    if |w| == 0 then 0.0 else ColumnSum(w[..|w| - 1], j) + w[|w| - 1][j]
  }

  /**
   * The inner summing loop of `filter`: adds one entry onto the partial sums
   * component by component; false where `ArrayIndexOutOfBoundsException`
   * is thrown because the entry is shorter than the sample.
   */
  method AddEntry(raw: array<real>, entry: seq<real>, ghost prefix: seq<seq<real>>) returns (ok: bool)
    requires Covers(prefix, raw.Length)
    requires forall j | 0 <= j < raw.Length :: raw[j] == ColumnSum(prefix, j)
    modifies raw
    ensures ok <==> raw.Length <= |entry|
    ensures ok ==> Covers(prefix + [entry], raw.Length)
    ensures ok ==> forall j | 0 <= j < raw.Length :: raw[j] == ColumnSum(prefix + [entry], j)
  {
    for d := 0 to raw.Length
      invariant d <= |entry|
      invariant forall j | 0 <= j < d :: raw[j] == ColumnSum(prefix, j) + entry[j]
      invariant forall j | d <= j < raw.Length :: raw[j] == ColumnSum(prefix, j)
    {
      if d >= |entry| {
        return false;
      }
      raw[d] := raw[d] + entry[d];
    }
    ghost var next := prefix + [entry];
    assert next[..|next| - 1] == prefix;
    assert Covers(next, raw.Length);
    return true;
  }

  /** The component-wise average of the first `n` components over the window. */
  function Mean(w: seq<seq<real>>, n: nat): (m: seq<real>)
    requires |w| > 0 && Covers(w, n)
    ensures |m| == n
  {
    seq(n, j requires 0 <= j < n => ColumnSum(w, j) / |w| as real)
  }

  /** Summing a column in which every entry is `c` gives `|w|` times `c`. */
  lemma {:induction false} ColumnSumConstant(w: seq<seq<real>>, j: nat, c: real)
    requires Covers(w, j + 1)
    requires forall k | 0 <= k < |w| :: w[k][j] == c
    ensures ColumnSum(w, j) == |w| as real * c
  {
    if |w| > 0 {
      ColumnSumConstant(w[..|w| - 1], j, c);
    }
  }

  /** A column sum lies between `|w|` times the smallest and `|w|` times the largest entry. */
  lemma {:induction false} ColumnSumBounded(w: seq<seq<real>>, j: nat, lo: real, hi: real)
    requires Covers(w, j + 1)
    requires forall k | 0 <= k < |w| :: lo <= w[k][j] <= hi
    ensures |w| as real * lo <= ColumnSum(w, j) <= |w| as real * hi
  {
    if |w| > 0 {
      var n := |w| - 1;
      ColumnSumBounded(w[..n], j, lo, hi);
      assert n as real * lo <= ColumnSum(w[..n], j) <= n as real * hi;
      assert |w| as real * lo == n as real * lo + lo && |w| as real * hi == n as real * hi + hi;
    }
  }

  /** Averaging a window that holds the same values everywhere gives those values back. */
  lemma MeanOfConstant(w: seq<seq<real>>, x: seq<real>)
    requires |w| > 0 && Covers(w, |x|)
    requires forall k, j | 0 <= k < |w| && 0 <= j < |x| :: w[k][j] == x[j]
    ensures Mean(w, |x|) == x
  {
    forall j | 0 <= j < |x|
      ensures Mean(w, |x|)[j] == x[j]
    {
      ColumnSumConstant(w, j, x[j]);
    }
  }

  /** Each averaged component lies within the range of that component over the window. */
  lemma MeanBounded(w: seq<seq<real>>, n: nat, j: nat, lo: real, hi: real)
    requires |w| > 0 && Covers(w, n) && j < n
    requires forall k | 0 <= k < |w| :: lo <= w[k][j] <= hi
    ensures lo <= Mean(w, n)[j] <= hi
  {
    ColumnSumBounded(w, j, lo, hi);
  }

  /** A window of three entries sums componentwise. */
  lemma ColumnSumOfThree(w: seq<seq<real>>, j: nat)
    requires |w| == 3 && Covers(w, j + 1)
    ensures ColumnSum(w, j) == w[0][j] + w[1][j] + w[2][j]
  {
    var w2 := w[..2];
    var w1 := w2[..1];
    assert ColumnSum(w1[..0], j) == 0.0;
    assert ColumnSum(w1, j) == w[0][j];
    assert ColumnSum(w2, j) == w[0][j] + w[1][j];
  }

  /** The mean of three samples of three values. */
  lemma MeanOfThree(x: seq<real>, y: seq<real>, z: seq<real>, m: seq<real>)
    requires |x| == |y| == |z| == |m| == 3
    requires forall j | 0 <= j < 3 :: m[j] == (x[j] + y[j] + z[j]) / 3.0
    ensures Mean([x, y, z], 3) == m
  {
    forall j | 0 <= j < 3
      ensures Mean([x, y, z], 3)[j] == m[j]
    {
      ColumnSumOfThree([x, y, z], j);
    }
  }

  /** The unit test of the filter: window 3, four samples. */
  lemma AveragingExample()
    ensures var w0 := [[0.0, 0.0, 0.0], [0.0, 0.0, 0.0], [0.0, 0.0, 0.0]];
      var w1 := Slide(w0, [0.0, 0.0, 0.0]);
      var w2 := Slide(w1, [-3.0, 6.0, 9.0]);
      var w3 := Slide(w2, [-3.0, 6.0, 9.0]);
      var w4 := Slide(w3, [-3.0, 6.0, -18.0]);
      Mean(w1, 3) == [0.0, 0.0, 0.0] && Mean(w2, 3) == [-1.0, 2.0, 3.0] &&
      Mean(w3, 3) == [-2.0, 4.0, 6.0] && Mean(w4, 3) == [-3.0, 6.0, 0.0]
  {
    var z := [0.0, 0.0, 0.0];
    var a, b := [-3.0, 6.0, 9.0], [-3.0, 6.0, -18.0];
    var w1 := Slide([z, z, z], z);
    var w2 := Slide(w1, a);
    var w3 := Slide(w2, a);
    var w4 := Slide(w3, b);
    assert w1 == [z, z, z];
    assert w2 == [a, z, z];
    assert w3 == [a, a, z];
    assert w4 == [b, a, a];
    MeanOfThree(z, z, z, [0.0, 0.0, 0.0]);
    MeanOfThree(a, z, z, [-1.0, 2.0, 3.0]);
    MeanOfThree(a, a, z, [-2.0, 4.0, 6.0]);
    MeanOfThree(b, a, a, [-3.0, 6.0, 0.0]);
  }

  class AveragingFilter {
    /** The next element of the pipeline. */
    const base: AbstractFilter
    /** `mBuffer`: copies of the last samples. */
    const buffer: RingBuffer<seq<real>>

    ghost predicate Valid()
      reads this, buffer
    {
      buffer.Valid() && |buffer.buffer| > 0
    }

    /**
     * `AveragingFilter(avgSampSize, dataSink)`; the one-argument form passes
     * no sink. The sample size must be positive.
     */
    constructor (avgSampSize: int, dataSink: Option<object>)
      requires 0 < avgSampSize <= MAX_INT
      ensures Valid() && fresh(base) && fresh(buffer)
      ensures base.sink == dataSink && base.sent == []
      ensures |buffer.Window()| == avgSampSize
      ensures forall age | 0 <= age < avgSampSize :: buffer.Window()[age] == [0.0, 0.0, 0.0]
    {
      base := new AbstractFilter(dataSink);
      buffer := new RingBuffer(avgSampSize, [0.0, 0.0, 0.0]);
    }

    /**
     * `filter(rawData)`: stores a copy of the sample, then overwrites it with
     * the mean of the window. An entry shorter than the sample throws
     * `ArrayIndexOutOfBoundsException`.
     */
    method Filter(raw: array<real>) returns (r: Result<()>)
      requires Valid()
      modifies buffer, raw
      ensures Valid()
      ensures buffer.Window() == Slide(old(buffer.Window()), old(raw[..]))
      ensures r.Ok? <==> Covers(buffer.Window(), raw.Length)
      ensures r.Ok? ==> raw[..] == Mean(buffer.Window(), raw.Length)
      ensures r.Err? ==> r.error == IndexOutOfBounds
    {
      var _ := buffer.Add(raw[..]);
      forall i | 0 <= i < raw.Length {
        raw[i] := 0.0;
      }
      r := SumWindow(raw);
      if r.Ok? {
        Divide(raw, buffer.Size());
      }
    }

    /** The summing loops of `filter`: adds every entry of the window onto a zeroed sample. */
    method SumWindow(raw: array<real>) returns (r: Result<()>)
      requires Valid()
      requires forall j | 0 <= j < raw.Length :: raw[j] == 0.0
      modifies raw
      ensures r.Ok? <==> Covers(buffer.Window(), raw.Length)
      ensures r.Ok? ==> forall j | 0 <= j < raw.Length :: raw[j] == ColumnSum(buffer.Window(), j)
      ensures r.Err? ==> r.error == IndexOutOfBounds
    {
      ghost var w := buffer.Window();
      var n := buffer.Size();
      for b := 0 to n
        invariant Covers(w[..b], raw.Length)
        invariant forall j | 0 <= j < raw.Length :: raw[j] == ColumnSum(w[..b], j)
      {
        var entry := buffer.GetByAge(b).value;
        assert entry == w[b] && w[..b + 1] == w[..b] + [entry];
        var ok := AddEntry(raw, entry, w[..b]);
        if !ok {
          assert |w[b]| < raw.Length;
          return Err(IndexOutOfBounds);
        }
      }
      assert w[..n] == w;
      return Ok(());
    }

    /** The dividing loop of `filter`. */
    method Divide(raw: array<real>, n: int)
      requires n > 0
      modifies raw
      ensures forall j | 0 <= j < raw.Length :: raw[j] == old(raw[j]) / n as real
    {
      for i := 0 to raw.Length
        invariant forall j | 0 <= j < i :: raw[j] == old(raw[j]) / n as real
        invariant forall j | i <= j < raw.Length :: raw[j] == old(raw[j])
      {
        raw[i] := raw[i] / n as real;
      }
    }

    /**
     * `onData`: averages the sample in place, then passes it on with the same
     * origin and sensitivity; a missing sink throws `NullPointerException`
     * after the sample has been averaged.
     */
    method OnData(origin: Option<NetworkDevice>, sensorData: SensorData, sensitivity: real) returns (r: Result<()>)
      requires Valid()
      modifies buffer, sensorData.data, base
      ensures Valid()
      ensures buffer.Window() == Slide(old(buffer.Window()), old(sensorData.data[..]))
      ensures Covers(buffer.Window(), sensorData.data.Length) ==> sensorData.data[..] == Mean(buffer.Window(), sensorData.data.Length)
      ensures r.Ok? <==> Covers(buffer.Window(), sensorData.data.Length) && old(base.sink).Some?
      ensures !Covers(buffer.Window(), sensorData.data.Length) ==> r == Err(IndexOutOfBounds) && base.sent == old(base.sent)
      ensures Covers(buffer.Window(), sensorData.data.Length) && old(base.sink).None? ==> r == Err(NullPointer) && base.sent == old(base.sent)
      ensures base.sink == old(base.sink)
      ensures r.Ok? ==> base.sent == old(base.sent) + [Delivery(base.sink.value, origin, sensorData.Value(), Some(sensitivity))]
    {
      var filtered := Filter(sensorData.data);
      if filtered.Err? {
        return filtered;
      }
      r := base.CallSink(origin, sensorData, Some(sensitivity));
    }
  }
}
