/**
 * `RingBuffer`: a fixed-capacity list in which `add` overwrites the slot after
 * the newest element, i.e. the oldest one. The capacity is set once by the
 * constructor, which fills every slot.
 */
module RingBuffers {
  import opened Common

  /** The window after `x` is added to a full window `w`: `x` is newest, the oldest entry drops out. */
  function Slide<E>(w: seq<E>, x: E): (w': seq<E>)
    ensures |w'| == |w|
    ensures |w| > 0 ==> w'[0] == x
    ensures forall k | 1 <= k < |w| :: w'[k] == w[k - 1]
  {
    if |w| == 0 then [] else [x] + w[..|w| - 1]
  }

  /** The slot `d` places before slot `i` in a ring of `n` slots. */
  function Back(n: int, i: int, d: int): (slot: int)
    requires 0 <= i < n && 0 <= d <= n
    ensures 0 <= slot < n
    ensures (slot - (i - d)) % n == 0
  {
    if i - d < 0 then i - d + n else i - d
  }

  /** The slots `b` read from write index `i` backwards: the newest element first. */
  function WindowOf<E>(b: seq<E>, i: int): (w: seq<E>)
    requires 0 <= i < |b| || i == |b| == 0
    ensures |w| == |b|
    ensures forall age | 0 <= age < |b| :: w[age] == b[Back(|b|, i, age + 1)]
  {
    seq(|b|, age requires 0 <= age < |b| => b[Back(|b|, i, age + 1)])
  }

  /** Writing at the index and advancing it slides the window by one. */
  lemma SlideOnWrite<E>(b: seq<E>, i: int, e: E)
    requires 0 <= i < |b|
    ensures WindowOf(b[i := e], if i + 1 == |b| then 0 else i + 1) == Slide(WindowOf(b, i), e)
  {
    var n := |b|;
    var i' := if i + 1 == n then 0 else i + 1;
    var w, w' := WindowOf(b, i), WindowOf(b[i := e], i');
    assert Back(n, i', 1) == i;
    forall age | 1 <= age < n
      ensures w'[age] == w[age - 1]
    {
      assert Back(n, i', age + 1) == Back(n, i, age);
    }
  }

  /**
   * `get(i)` on slots b with write index `index`. The slot `index - 1 + i` is
   * computed in Java `int` arithmetic, so it wraps around for `i` near
   * `Integer.MAX_VALUE`.
   */
  function ReadSlot<E>(b: seq<E>, index: int, i: int): (r: Result<E>)
    requires 0 <= index < |b| <= MAX_INT || index == |b| == 0
    requires IsInt32(i)
    ensures r.Ok? <==> |b| > 0 && WrapInt32(index - 1 + i) + |b| >= 0
    ensures r.Ok? ==> r.value == b[WrapInt32(index - 1 + i) % |b|]
    // without overflow, the slot is the plain sum
    ensures IsInt32(index - 1 + i) ==>
      (r.Ok? <==> |b| > 0 && index - 1 + i + |b| >= 0) && (r.Ok? ==> r.value == b[(index - 1 + i) % |b|])
  {
    var timed := WrapInt32(index - 1 + i);
    if timed < 0 then
      var wrapped := timed + |b|;
      if wrapped < 0 then Err(IndexOutOfBounds)
      else
        ModInRange(wrapped, |b|);
        Ok(b[wrapped])
    else if |b| == 0 then Err(Arithmetic)
    else Ok(b[timed % |b|])
  }

  /** After writing e at slot i and advancing, `get(0)` is e; before, `get(1)` was the overwritten slot. */
  lemma WriteThenRead<E>(b: seq<E>, i: int, e: E)
    requires 0 <= i < |b| <= MAX_INT
    ensures ReadSlot(b, i, 1) == Ok(b[i])
    ensures ReadSlot(b[i := e], if i + 1 == |b| then 0 else i + 1, 0) == Ok(e)
  {
    ModInRange(i, |b|);
    if i + 1 < |b| {
      assert (i + 1 - 1 + 0) % |b| == i;
    }
  }

  /**
   * The `int` sum wraps: with write index 2 in a ring of 3 slots,
   * `get(Integer.MAX_VALUE)` computes the slot -2147483648 + 3 and throws.
   */
  lemma GetWrapsAtMaxInt<E>(b: seq<E>)
    requires |b| == 3
    ensures ReadSlot(b, 2, MAX_INT) == Err(IndexOutOfBounds)
  {
    assert WrapInt32(2 - 1 + MAX_INT) == MIN_INT;
  }

  lemma ModInRange(x: int, n: int)
    requires 0 <= x < n
    ensures x % n == x && (x - n) % n == x
  {
  }

  class RingBuffer<E> {
    /** `mBuffer`: one slot per unit of capacity. */
    var buffer: seq<E>
    /** `mIndex`: the slot the next `add` writes. */
    var index: int
    /** `mSize` */
    var size: int

    /** The write index stays a slot of the buffer, and `mSize` equals the capacity. */
    ghost predicate Valid()
      reads this
    {
      size == |buffer| <= MAX_INT && (if |buffer| == 0 then index == 0 else 0 <= index < |buffer|)
    }

    /** `new RingBuffer(size, fillWith)`: `size` copies of `fillWith`. */
    constructor (capacity: nat, fillWith: E)
      requires capacity <= MAX_INT
      ensures Valid()
      ensures |buffer| == capacity && index == 0 && size == capacity
      ensures forall k | 0 <= k < capacity :: buffer[k] == fillWith
    {
      var slots: seq<E> := [];
      for i := 0 to capacity
        invariant |slots| == i
        invariant forall k | 0 <= k < i :: slots[k] == fillWith
      {
        slots := slots + [fillWith];
      }
      buffer := slots;
      index := 0;
      size := capacity;
    }

    /** `size()`: always the capacity, because `mSize` starts there and `add` never raises it. */
    function Size(): (n: int)
      reads this
      requires Valid()
      ensures n == |buffer|
    {
      size
    }

    /**
     * `get(i)` as written: slot `mIndex - 1 + i` in `int` arithmetic, reduced
     * modulo the capacity. A negative slot below `-capacity` throws
     * `IndexOutOfBoundsException`; with capacity 0 the reduction divides by
     * zero.
     */
    function Get(i: int): (r: Result<E>)
      reads this
      requires Valid() && IsInt32(i)
      ensures r.Ok? <==> |buffer| > 0 && WrapInt32(index - 1 + i) + |buffer| >= 0
      ensures r.Ok? ==> r.value == buffer[WrapInt32(index - 1 + i) % |buffer|]
    {
      ReadSlot(buffer, index, i)
    }

    /**
     * The age order the documentation of `get` describes: age 0 is the newest
     * element, age `size() - 1` the oldest.
     */
    function GetByAge(age: int): (r: Result<E>)
      reads this
      requires Valid()
      ensures r.Ok? <==> 0 <= age < |buffer|
      ensures r.Ok? ==> r.value == buffer[Back(|buffer|, index, age + 1)]
    {
      if age < 0 || age >= |buffer| then Err(IndexOutOfBounds)
      else
        var slot := index - 1 - age;
        if slot < 0 then Ok(buffer[slot + |buffer|]) else Ok(buffer[slot])
    }

    /** Every element, newest first. */
    function Window(): (w: seq<E>)
      reads this
      requires Valid()
      ensures |w| == |buffer|
      ensures forall age | 0 <= age < |w| :: GetByAge(age) == Ok(w[age])
    {
      WindowOf(buffer, index)
    }

    /**
     * `add(e)`: writes `e` into slot `mIndex`, advances the index with
     * wrap-around and returns the element that was overwritten. With capacity
     * 0 it throws `IndexOutOfBoundsException`.
     */
    method Add(e: E) returns (r: Result<E>)
      requires Valid()
      modifies this
      ensures Valid()
      ensures |old(buffer)| == 0 ==> r == Err(IndexOutOfBounds) && buffer == old(buffer) && index == old(index) && size == old(size)
      ensures |old(buffer)| > 0 ==> r == Ok(old(buffer)[old(index)]) && buffer == old(buffer)[old(index) := e]
      ensures |old(buffer)| > 0 ==> index == if old(index) + 1 == |buffer| then 0 else old(index) + 1
      ensures size == old(size)
      ensures |buffer| > 0 ==> r == old(Get(1)) && Get(0) == Ok(e)
      ensures Window() == Slide(old(Window()), e)
    {
      // the guard is never true, since the constructor sets mSize to the capacity
      size := if size < |buffer| then size + 1 else size;
      if index == |buffer| {
        return Err(IndexOutOfBounds);
      }
      var overwritten := buffer[index];
      buffer := buffer[index := e];
      index := index + 1;
      if index >= |buffer| {
        index := 0;
      }
      r := Ok(overwritten);
      SlideOnWrite(old(buffer), old(index), e);
      WriteThenRead(old(buffer), old(index), e);
    }
  }

  /**
   * The documented age order and the written one disagree: after filling a
   * buffer of capacity 3 with 1, 2, 3, `get(2)` answers 2, while the oldest
   * element, which `get(size() - 1)` is documented to return, is 1.
   */
  method AgeOrderCounterexample() returns (asWritten: Result<int>, documented: Result<int>)
    ensures asWritten == Ok(2)
    ensures documented == Ok(1)
  {
    var b := new RingBuffer<int>(3, 0);
    var _ := b.Add(1);
    var _ := b.Add(2);
    var _ := b.Add(3);
    asWritten := b.Get(2);
    documented := b.GetByAge(b.Size() - 1);
  }
}
