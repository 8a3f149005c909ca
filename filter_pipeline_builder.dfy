/**
 * `FilterPipelineBuilder`: an ordered list of filters that `build` links into
 * a pipeline, each element forwarding to the one after it.
 */
module FilterPipelineBuilders {
  import opened Common
  import opened AbstractFilters

  /** The list without its element at `i`. */
  function RemovedAt<T>(s: seq<T>, i: nat): (r: seq<T>)
    requires i < |s|
    ensures |r| == |s| - 1
    ensures forall k | 0 <= k < i :: r[k] == s[k]
    ensures forall k | i <= k < |r| :: r[k] == s[k + 1]
  {
    s[..i] + s[i + 1..]
  }

  /** The list with `x` inserted so that it sits at `i`. */
  function InsertedAt<T>(s: seq<T>, x: T, i: nat): (r: seq<T>)
    requires i <= |s|
    ensures |r| == |s| + 1 && r[i] == x
    ensures forall k | 0 <= k < i :: r[k] == s[k]
    ensures forall k | i < k < |r| :: r[k] == s[k - 1]
  {
    s[..i] + [x] + s[i..]
  }

  /** Inserting and then removing at the same position gives the list back. */
  lemma RemoveInserted<T>(s: seq<T>, x: T, i: nat)
    requires i <= |s|
    ensures RemovedAt(InsertedAt(s, x, i), i) == s
  {
  }

  /** Position `p` holds the last occurrence of its element among the first `n` positions. */
  predicate LastBefore(s: seq<AbstractFilter>, p: nat, n: nat)
    requires p < n <= |s|
  {
    forall q | p < q < n :: s[q] != s[p]
  }

  class FilterPipelineBuilder {
    /** `mPipelineElements` */
    var elements: seq<AbstractFilter>

    constructor ()
      ensures elements == []
    {
      elements := [];
    }

    /** `prepend`: the filter becomes the first element. */
    method Prepend(filter: AbstractFilter)
      modifies this
      ensures elements == [filter] + old(elements)
    {
      elements := [filter] + elements;
    }

    /** `append(filter)`: the filter becomes the last element. */
    method Append(filter: AbstractFilter)
      modifies this
      ensures elements == old(elements) + [filter]
    {
      elements := elements + [filter];
    }

    /** `append(filter, index)`: inserts at the index, or throws `IndexOutOfBoundsException` unless 0 <= index <= size. */
    method AppendAt(filter: AbstractFilter, index: int) returns (r: Result<()>)
      modifies this
      ensures r.Ok? <==> 0 <= index <= |old(elements)|
      ensures r.Ok? ==> elements == InsertedAt(old(elements), filter, index)
      ensures r.Err? ==> r.error == IndexOutOfBounds && elements == old(elements)
    {
      if index < 0 || index > |elements| {
        return Err(IndexOutOfBounds);
      }
      elements := InsertedAt(elements, filter, index);
      return Ok(());
    }

    /** `get(index)`, throwing `IndexOutOfBoundsException` outside the list. */
    function Get(index: int): (r: Result<AbstractFilter>)
      reads this
      ensures r.Ok? <==> 0 <= index < |elements|
      ensures r.Ok? ==> r.value == elements[index] && r.value in elements
    {
      if 0 <= index < |elements| then Ok(elements[index]) else Err(IndexOutOfBounds)
    }

    /** `remove(index)`: drops the element at the index, keeping the order of the others. */
    method RemoveAt(index: int) returns (r: Result<()>)
      modifies this
      ensures r.Ok? <==> 0 <= index < |old(elements)|
      ensures r.Ok? ==> elements == RemovedAt(old(elements), index)
      ensures r.Err? ==> r.error == IndexOutOfBounds && elements == old(elements)
    {
      if index < 0 || index >= |elements| {
        return Err(IndexOutOfBounds);
      }
      elements := RemovedAt(elements, index);
      return Ok(());
    }

    /** `remove(element)`: drops the first occurrence of the filter, if there is one. */
    method Remove(element: AbstractFilter)
      modifies this
      ensures element !in old(elements) ==> elements == old(elements)
      ensures element in old(elements) ==> exists i | 0 <= i < |old(elements)| ::
        old(elements)[i] == element && element !in old(elements)[..i] && elements == RemovedAt(old(elements), i)
    {
      var i := 0;
      while i < |elements|
        invariant 0 <= i <= |elements|
        invariant element !in elements[..i]
      {
        if elements[i] == element {
          elements := RemovedAt(elements, i);
          return;
        }
        assert elements[..i + 1] == elements[..i] + [elements[i]];
        i := i + 1;
      }
      assert elements[..i] == elements;
    }

    /**
     * The loop shared by both `build`s: element i-1 gets element i as its
     * sink, for i from 1. A filter listed twice keeps the link set for its
     * last position before the end.
     */
    method Link()
      modifies set f | f in elements
      ensures forall f | f in elements :: f.sent == old(f.sent)
      ensures forall p | 0 <= p < |elements| - 1 && LastBefore(elements, p, |elements| - 1) ::
        elements[p].sink == Some(elements[p + 1])
      ensures forall f | f in elements && (|elements| == 0 || f !in elements[..|elements| - 1]) :: f.sink == old(f.sink)
    {
      var n := |elements|;
      var i := 1;
      while i < n
        invariant n == |elements| && (1 <= i <= n || (n == 0 && i == 1))
        invariant forall f | f in elements :: f.sent == old(f.sent)
        invariant forall p | 0 <= p < i - 1 && LastBefore(elements, p, i - 1) :: elements[p].sink == Some(elements[p + 1])
        invariant forall f | f in elements && f !in elements[..i - 1] :: f.sink == old(f.sink)
      {
        elements[i - 1].SetDataSink(Some(elements[i]));
        assert elements[..i] == elements[..i - 1] + [elements[i - 1]];
        i := i + 1;
      }
    }

    /**
     * `build()`: links the elements and returns the first; the last element's
     * sink is left as it was. An empty list throws `IndexOutOfBoundsException`,
     * although the documentation of `build` promises `null` in that case; the
     * model follows the code.
     */
    method Build() returns (r: Result<AbstractFilter>)
      modifies set f | f in elements
      ensures r.Ok? <==> |elements| > 0
      ensures r.Ok? ==> r.value == elements[0]
      ensures r.Err? ==> r.error == IndexOutOfBounds
      ensures forall f | f in elements :: f.sent == old(f.sent)
      ensures forall p | 0 <= p < |elements| - 1 && LastBefore(elements, p, |elements| - 1) ::
        elements[p].sink == Some(elements[p + 1])
      ensures forall f | f in elements && (|elements| == 0 || f !in elements[..|elements| - 1]) :: f.sink == old(f.sink)
    {
      Link();
      r := Get(0);
    }

    /**
     * `build(lastElement)`: links the elements, makes `lastElement` the sink of
     * the last one and returns the first. An empty list throws
     * `NoSuchElementException` at `getLast`.
     */
    method BuildTo(lastElement: Option<object>) returns (r: Result<AbstractFilter>)
      modifies set f | f in elements
      ensures r.Ok? <==> |elements| > 0
      ensures r.Ok? ==> r.value == elements[0] && elements[|elements| - 1].sink == lastElement
      ensures r.Err? ==> r.error == NoSuchElement
      ensures forall f | f in elements :: f.sent == old(f.sent)
      ensures forall p | 0 <= p < |elements| - 1 && LastBefore(elements, p, |elements|) ::
        elements[p].sink == Some(elements[p + 1])
    {
      Link();
      if |elements| == 0 {
        return Err(NoSuchElement);
      }
      var last := elements[|elements| - 1];
      last.SetDataSink(lastElement);
      r := Get(0);
    }
  }
}
