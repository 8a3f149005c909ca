/**
 * `TemporaryIntegratingFilter`: replaces each sample by the sum of the last
 * `length` samples. The samples are kept in `length` rows of three values;
 * the row to write next moves round the rows.
 */
module TemporaryIntegratingFilters {
  import opened Common
  import opened Devices
  import opened Sensors
  import opened AbstractFilters
  import opened AveragingFilters

  /** The width of a row of the storage. */
  const RowWidth: nat := 3

  /** The column sums of the first `n` columns. */
  function Sums(rows: seq<seq<real>>, n: nat): (s: seq<real>)
    requires Covers(rows, n)
    ensures |s| == n
  {
    seq(n, j requires 0 <= j < n => ColumnSum(rows, j))
  }

  /** A column in which every entry but the one in row `r` is zero sums to that entry. */
  lemma {:induction false} ColumnSumOneRow(rows: seq<seq<real>>, j: nat, r: nat)
    requires Covers(rows, j + 1) && r < |rows|
    requires forall k | 0 <= k < |rows| && k != r :: rows[k][j] == 0.0
    ensures ColumnSum(rows, j) == rows[r][j]
  {
    if |rows| - 1 == r {
      ColumnSumConstant(rows[..r], j, 0.0);
    } else {
      ColumnSumOneRow(rows[..|rows| - 1], j, r);
    }
  }

  /** When all rows but one are zero, the sums are that row: after `resetFilter` the next sample passes unchanged. */
  lemma SumsOneRow(rows: seq<seq<real>>, n: nat, r: nat)
    requires Covers(rows, n) && r < |rows|
    requires forall k, j | 0 <= k < |rows| && k != r && 0 <= j < n :: rows[k][j] == 0.0
    ensures Sums(rows, n) == rows[r][..n]
  {
    forall j | 0 <= j < n
      ensures Sums(rows, n)[j] == rows[r][j]
    {
      ColumnSumOneRow(rows, j, r);
    }
  }

  class TemporaryIntegratingFilter {
    /** The next element of the pipeline. */
    const base: AbstractFilter
    /** `mValueStorage` */
    var storage: seq<seq<real>>
    /** `mIndex`: the row the next sample is copied into. */
    var index: nat

    ghost predicate Valid()
      reads this
    {
      forall k | 0 <= k < |storage| :: |storage[k]| == RowWidth
    }

    /** `TemporaryIntegratingFilter(sink, length)`: `length` rows of zeros. */
    constructor (sink: Option<object>, length: nat)
      ensures Valid() && fresh(base) && base.sink == sink && base.sent == []
      ensures |storage| == length && index == 0
      ensures forall k | 0 <= k < length :: storage[k] == [0.0, 0.0, 0.0]
    {
      base := new AbstractFilter(sink);
      storage := seq(length, _ => [0.0, 0.0, 0.0]);
      index := 0;
    }

    /**
     * `onData`: copies the sample into row `mIndex` (advancing the index
     * first, as `mValueStorage[mIndex++]` does), wraps the index, overwrites
     * the sample with the column sums and passes it on. An index past the last
     * row, as with no rows at all, or a sample of more than three values throws
     * `ArrayIndexOutOfBoundsException` after the index has advanced; a
     * missing sink throws `NullPointerException` at the end.
     */
    method OnData(origin: Option<NetworkDevice>, sensorData: SensorData, sensitivity: real) returns (r: Result<()>)
      requires Valid()
      modifies this, sensorData.data, base
      ensures Valid()
      ensures base.sink == old(base.sink)
      ensures old(index) >= |old(storage)| || sensorData.data.Length > RowWidth ==>
        r == Err(IndexOutOfBounds) && index == old(index) + 1 && storage == old(storage) &&
        unchanged(sensorData.data) && base.sent == old(base.sent)
      ensures old(index) < |old(storage)| && sensorData.data.Length <= RowWidth ==>
        storage == old(storage)[old(index) := old(sensorData.data[..]) + old(storage)[old(index)][sensorData.data.Length..]] &&
        index == (if old(index) + 1 == |storage| then 0 else old(index) + 1) &&
        sensorData.data[..] == Sums(storage, sensorData.data.Length)
      ensures r.Ok? <==> old(index) < |old(storage)| && sensorData.data.Length <= RowWidth && base.sink.Some?
      ensures r.Ok? ==> base.sent == old(base.sent) + [Delivery(base.sink.value, origin, sensorData.Value(), Some(sensitivity))]
      ensures r.Err? ==> base.sent == old(base.sent)
    {
      var data := sensorData.data;
      var row := index;
      index := index + 1;
      if row >= |storage| || data.Length > |storage[row]| {
        return Err(IndexOutOfBounds);
      }
      storage := storage[row := data[..] + storage[row][data.Length..]];
      if index >= |storage| {
        index := 0;
      }
      Sum(data);
      r := base.CallSink(origin, sensorData, Some(sensitivity));
    }

    /** `sum(target)`: overwrites the target with the column sums of the storage. */
    method Sum(target: array<real>)
      requires Valid() && target.Length <= RowWidth
      modifies target
      ensures target[..] == Sums(storage, target.Length)
    {
      forall i | 0 <= i < target.Length {
        target[i] := 0.0;
      }
      for b := 0 to |storage|
        invariant forall j | 0 <= j < target.Length :: target[j] == ColumnSum(storage[..b], j)
      {
        var valueSet := storage[b];
        assert storage[..b + 1][..b] == storage[..b];
        for i := 0 to target.Length
          invariant forall j | 0 <= j < i :: target[j] == ColumnSum(storage[..b + 1], j)
          invariant forall j | i <= j < target.Length :: target[j] == ColumnSum(storage[..b], j)
        {
          target[i] := target[i] + valueSet[i];
        }
      }
      assert storage[..|storage|] == storage;
    }

    /** `resetFilter`: every row back to zeros; the row index stays. */
    method ResetFilter()
      requires Valid()
      modifies this
      ensures Valid()
      ensures |storage| == |old(storage)| && index == old(index)
      ensures forall k | 0 <= k < |storage| :: storage[k] == [0.0, 0.0, 0.0]
    {
      for i := 0 to |storage|
        invariant Valid() && |storage| == |old(storage)| && index == old(index)
        invariant forall k | 0 <= k < i :: storage[k] == [0.0, 0.0, 0.0]
      {
        var zeroed := storage[i];
        for j := 0 to |zeroed|
          invariant |zeroed| == RowWidth
          invariant forall l | 0 <= l < j :: zeroed[l] == 0.0
        {
          zeroed := zeroed[j := 0.0];
        }
        storage := storage[i := zeroed];
      }
    }
  }
}
