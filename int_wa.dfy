/**
 * `coppelia.IntWA` of the V-REP remote API: an `int` array that is sent as a
 * `char` array, four little-endian bytes per `int`, each byte in a `char` of
 * its own.
 */
module Coppelia {
  import opened Common

  /** A Java `int`. */
  type Int32 = x: int | MIN_INT <= x <= MAX_INT

  /** A Java `char`: an unsigned 16-bit value. */
  type Char16 = c: int | 0 <= c < 0x1_0000

  /** `u >>> (8 * k)` on the unsigned 32-bit pattern u. */
  function Shift(u: nat, k: nat): nat {
    if k == 0 then u else Shift(u, k - 1) / 256
  }

  /** `(w >>> (8 * k)) & 0xff`: byte k of w, byte 0 the least significant. */
  function Byte(w: int, k: nat): (b: int)
    ensures 0 <= b < 256
  {
    Shift(w % TWO_32, k) % 256
  }

  /** `getCharArrayFromArray` as a value: byte k of word i at position 4i+k. */
  function Encode(ws: seq<Int32>): (a: seq<Char16>)
    ensures |a| == 4 * |ws|
    ensures forall j | 0 <= j < |a| :: 0 <= a[j] < 256
  {
    seq(4 * |ws|, j requires 0 <= j < 4 * |ws| => Byte(ws[j / 4], j % 4) as Char16)
  }

  /** `(int)(((b3&0xff) << 24) + ((b2&0xff) << 16) + ((b1&0xff) << 8) + (b0&0xff))` in 32-bit arithmetic. */
  function Word(b0: Char16, b1: Char16, b2: Char16, b3: Char16): (w: Int32) {
    WrapInt32((b3 % 256) * 0x100_0000 + (b2 % 256) * 0x1_0000 + (b1 % 256) * 0x100 + b0 % 256)
  }

  /** `initArrayFromCharArray` as a value: word i from chars 4i ... 4i+3; trailing chars are ignored. */
  function Decode(a: seq<Char16>): (ws: seq<Int32>)
    ensures |ws| == |a| / 4
  {
    seq(|a| / 4, i requires 0 <= i < |a| / 4 => Word(a[4 * i], a[4 * i + 1], a[4 * i + 2], a[4 * i + 3]))
  }

  /** The four bytes of a word, reassembled, give the word back. */
  lemma WordOfBytes(w: Int32)
    ensures Word(Byte(w, 0) as Char16, Byte(w, 1) as Char16, Byte(w, 2) as Char16, Byte(w, 3) as Char16) == w
  {
    var u := w % TWO_32;
    var b0, b1, b2, b3 := Byte(w, 0), Byte(w, 1), Byte(w, 2), Byte(w, 3);
    assert b0 % 256 == b0 && b1 % 256 == b1 && b2 % 256 == b2 && b3 % 256 == b3;
    assert b0 == Shift(u, 0) % 256 && b1 == Shift(u, 1) % 256 && b2 == Shift(u, 2) % 256 && b3 == Shift(u, 3) % 256;
    BytesCompose(u);
    assert b3 * 0x100_0000 + b2 * 0x1_0000 + b1 * 0x100 + b0 == u;
    UnsignedRoundTrip(w);
  }

  /** An unsigned 32-bit pattern is the sum of its four bytes at their weights. */
  lemma BytesCompose(u: nat)
    requires u < TWO_32
    ensures Shift(u, 3) % 256 * 0x100_0000 + Shift(u, 2) % 256 * 0x1_0000 + Shift(u, 1) % 256 * 0x100 + Shift(u, 0) % 256 == u
  {
    assert Shift(u, 0) == u;
    var s1 := Shift(u, 1);
    assert s1 == u / 256;
    var s2 := Shift(u, 2);
    assert s2 == s1 / 256;
    var s3 := Shift(u, 3);
    assert s3 == s2 / 256;
    ByteSplit(u, 0x100_0000);
    ByteSplit(s1, 0x1_0000);
    ByteSplit(s2, 256);
    assert s3 % 256 == s3;
  }

  /** A value below 256 * b is its low byte plus 256 times a quotient below b. */
  lemma ByteSplit(x: nat, b: nat)
    requires x < 256 * b
    ensures x == 256 * (x / 256) + x % 256 && x / 256 < b
  {
  }

  /** Reading the unsigned pattern of an `int` back as an `int` gives the `int`. */
  lemma UnsignedRoundTrip(w: Int32)
    ensures WrapInt32(w % TWO_32) == w
  {
    if w < 0 {
      assert w % TWO_32 == w + TWO_32;
    } else {
      assert w % TWO_32 == w;
    }
  }

  /** Decoding the encoding restores every word, negative ones included. */
  lemma DecodeEncode(ws: seq<Int32>)
    ensures Decode(Encode(ws)) == ws
  {
    var a := Encode(ws);
    forall i | 0 <= i < |ws|
      ensures Decode(a)[i] == ws[i]
    {
      assert (4 * i) / 4 == i && (4 * i + 1) / 4 == i && (4 * i + 2) / 4 == i && (4 * i + 3) / 4 == i;
      assert (4 * i) % 4 == 0 && (4 * i + 1) % 4 == 1 && (4 * i + 2) % 4 == 2 && (4 * i + 3) % 4 == 3;
      WordOfBytes(ws[i]);
    }
  }

  /** Char 4i holds the low byte of word i and char 4i+3 the high byte. */
  lemma EncodeLittleEndian(ws: seq<Int32>, i: nat)
    requires i < |ws|
    ensures Encode(ws)[4 * i] == Byte(ws[i], 0)
    ensures Encode(ws)[4 * i + 3] == Byte(ws[i], 3)
    ensures ws[i] >= 0 ==> Encode(ws)[4 * i] == ws[i] % 256
  {
    assert (4 * i) / 4 == i && (4 * i + 3) / 4 == i;
    assert (4 * i) % 4 == 0 && (4 * i + 3) % 4 == 3;
  }

  /** Decoding reads only the low 8 bits of each char and only the first 4 * (|a| / 4) chars. */
  lemma DecodeLowBitsOnly(a: seq<Char16>, b: seq<Char16>)
    requires |a| / 4 == |b| / 4
    requires forall j | 0 <= j < 4 * (|a| / 4) :: a[j] % 256 == b[j] % 256
    ensures Decode(a) == Decode(b)
  {
    forall i | 0 <= i < |a| / 4
      ensures Decode(a)[i] == Decode(b)[i]
    {
      assert 4 * i + 3 < 4 * (|a| / 4);
    }
  }

  class IntWA {
    /** `w` */
    var w: array<Int32>

    /** `new IntWA(i)`: an array of i zeros. */
    constructor (i: nat)
      ensures fresh(w) && w.Length == i
      ensures forall k | 0 <= k < i :: w[k] == 0
    {
      w := new Int32[i](_ => 0);
    }

    /**
     * `initArray(i)`: a new array of i zeros replaces w; a negative length
     * throws `NegativeArraySizeException` and keeps w.
     */
    method InitArray(i: int) returns (r: Result<()>)
      modifies this
      ensures i < 0 ==> r == Err(NegativeArraySize) && w == old(w)
      ensures i >= 0 ==> r.Ok? && fresh(w) && w.Length == i && forall k | 0 <= k < i :: w[k] == 0
    {
      if i < 0 {
        return Err(NegativeArraySize);
      }
      w := new Int32[i](_ => 0);
      return Ok(());
    }

    /** `getNewArray(i)`: as `initArray`, and returns the new array. */
    method GetNewArray(i: int) returns (r: Result<array<Int32>>)
      modifies this
      ensures i < 0 ==> r == Err(NegativeArraySize) && w == old(w)
      ensures i >= 0 ==> r == Ok(w) && fresh(w) && w.Length == i && forall k | 0 <= k < i :: w[k] == 0
    {
      if i < 0 {
        return Err(NegativeArraySize);
      }
      w := new Int32[i](_ => 0);
      return Ok(w);
    }

    /** `getLength` */
    function GetLength(): (n: nat)
      reads this
      ensures n == w.Length
    {
      w.Length
    }

    /** `getCharArrayFromArray`: a new char array holding the encoding of w. */
    method GetCharArrayFromArray() returns (a: array<Char16>)
      ensures fresh(a)
      ensures a[..] == Encode(w[..])
    {
      a := new Char16[4 * w.Length];
      for i := 0 to w.Length
        invariant forall j | 0 <= j < 4 * i :: a[j] == Byte(w[j / 4], j % 4)
      {
        a[4 * i + 0] := Byte(w[i], 0);
        a[4 * i + 1] := Byte(w[i], 1);
        a[4 * i + 2] := Byte(w[i], 2);
        a[4 * i + 3] := Byte(w[i], 3);
        forall j | 4 * i <= j < 4 * i + 4
          ensures j / 4 == i && j % 4 == j - 4 * i
        {
        }
      }
    }

    /** `initArrayFromCharArray`: w becomes a new array holding the decoding of a. */
    method InitArrayFromCharArray(a: array<Char16>)
      modifies this
      ensures fresh(w)
      ensures w[..] == Decode(a[..])
    {
      var n := a.Length / 4;
      var v := new Int32[n];
      for i := 0 to n
        invariant forall k | 0 <= k < i :: v[k] == Word(a[4 * k], a[4 * k + 1], a[4 * k + 2], a[4 * k + 3])
      {
        v[i] := Word(a[4 * i + 0], a[4 * i + 1], a[4 * i + 2], a[4 * i + 3]);
      }
      w := v;
    }
  }
}
