/**
 * `SensorData`: one event of one phone sensor (type, values, timestamp,
 * accuracy), and its `Externalizable` form. A stream is modelled as the
 * sequence of primitive values written to it (`writeUTF`, `writeInt`,
 * `writeFloat`, `writeLong`), not as bytes.
 */
module Sensors {
  import opened Common

  const MIN_LONG: int := -0x8000_0000_0000_0000
  const MAX_LONG: int := 0x7FFF_FFFF_FFFF_FFFF

  /** The value of a `SensorData` object. */
  datatype Sample = Sample(sensorType: SensorType, data: seq<real>, timestamp: int, accuracy: int)

  /** The field values Java can hold: a `long` timestamp, an `int` accuracy, an array of at most `Integer.MAX_VALUE` values. */
  predicate Representable(s: Sample) {
    MIN_LONG <= s.timestamp <= MAX_LONG && IsInt32(s.accuracy) && |s.data| <= MAX_INT
  }

  /** One primitive value on an object stream. */
  datatype Token = Utf(text: string) | IntTok(i: int) | FloatTok(f: real) | LongTok(l: int)

  /** `SensorType.name()` */
  function Name(t: SensorType): string {
    match t
    case Accelerometer => "Accelerometer"
    case Gyroscope => "Gyroscope"
    case Magnetometer => "Magnetometer"
    case LinearAcceleration => "LinearAcceleration"
    case RotationVector => "RotationVector"
    case Orientation => "Orientation"
    case GameRotationVector => "GameRotationVector"
    case Gravity => "Gravity"
  }

  /** `SensorType.valueOf(name)`: `IllegalArgumentException` for a name no constant has. */
  function ValueOf(name: string): (r: Result<SensorType>)
    ensures r.Ok? ==> Name(r.value) == name
    ensures r.Err? ==> r.error == IllegalArgument && forall t: SensorType :: Name(t) != name
  {
    if name == "Accelerometer" then Ok(Accelerometer)
    else if name == "Gyroscope" then Ok(Gyroscope)
    else if name == "Magnetometer" then Ok(Magnetometer)
    else if name == "LinearAcceleration" then Ok(LinearAcceleration)
    else if name == "RotationVector" then Ok(RotationVector)
    else if name == "Orientation" then Ok(Orientation)
    else if name == "GameRotationVector" then Ok(GameRotationVector)
    else if name == "Gravity" then Ok(Gravity)
    else assert forall t: SensorType :: Name(t) != name; Err(IllegalArgument)
  }

  lemma ValueOfName(t: SensorType)
    ensures ValueOf(Name(t)) == Ok(t)
  {
  }

  /** `writeFloat` for each value, in order. */
  function FloatTokens(data: seq<real>): (ts: seq<Token>)
    ensures |ts| == |data|
    ensures forall i | 0 <= i < |data| :: ts[i] == FloatTok(data[i])
  {
    seq(|data|, i requires 0 <= i < |data| => FloatTok(data[i]))
  }

  /** `writeExternal`: type name, value count, the values, timestamp, accuracy. */
  function Serialize(s: Sample): (ts: seq<Token>)
    ensures |ts| == |s.data| + 4
    ensures ts[0] == Utf(Name(s.sensorType)) && ts[1] == IntTok(|s.data|)
    ensures ts[2..2 + |s.data|] == FloatTokens(s.data)
    ensures ts[|ts| - 2] == LongTok(s.timestamp) && ts[|ts| - 1] == IntTok(s.accuracy)
  {
    [Utf(Name(s.sensorType)), IntTok(|s.data|)] + FloatTokens(s.data) + [LongTok(s.timestamp), IntTok(s.accuracy)]
  }

  /** One more value appends one more float token. */
  lemma FloatTokensSnoc(data: seq<real>, x: real)
    ensures FloatTokens(data + [x]) == FloatTokens(data) + [FloatTok(x)]
  {
    assert |FloatTokens(data + [x])| == |FloatTokens(data) + [FloatTok(x)]|;
    forall i | 0 <= i < |data| + 1
      ensures FloatTokens(data + [x])[i] == (FloatTokens(data) + [FloatTok(x)])[i]
    {
    }
  }

  /** The stream holds a float at position `i`. */
  predicate FloatAt(input: seq<Token>, i: nat) {
    i < |input| && input[i].FloatTok?
  }

  /** `readFloat` `count` times from position `pos`: the values, or `EOFException` / a corrupt stream. */
  function ReadFloats(input: seq<Token>, pos: nat, count: nat): (r: Result<seq<real>>)
    ensures r.Ok? ==> |r.value| == count && (count > 0 ==> pos + count <= |input|)
    ensures r.Ok? ==> forall i | 0 <= i < count :: input[pos + i] == FloatTok(r.value[i])
    ensures r.Ok? <==> forall i | pos <= i < pos + count :: FloatAt(input, i)
    decreases count
  {
    if count == 0 then Ok([])
    else match ReadFloats(input, pos, count - 1)
      case Err(e) => Err(e)
      case Ok(prefix) =>
        var at := pos + count - 1;
        if at >= |input| then assert !FloatAt(input, at); Err(EndOfStream)
        else if !input[at].FloatTok? then assert !FloatAt(input, at); Err(StreamCorrupted)
        else Ok(prefix + [input[at].f])
  }

  /** Once the values up to `i` are read, a bad token at `i` decides the outcome of reading more. */
  lemma {:induction false} ReadFloatsFirstError(input: seq<Token>, pos: nat, i: nat, count: nat)
    requires i < count
    requires ReadFloats(input, pos, i).Ok?
    requires pos + i >= |input| || !input[pos + i].FloatTok?
    ensures ReadFloats(input, pos, count) == Err(if pos + i >= |input| then EndOfStream else StreamCorrupted)
    decreases count
  {
    if count > i + 1 {
      ReadFloatsFirstError(input, pos, i, count - 1);
    }
  }

  /** The primitive kinds a stream is read as. */
  datatype Kind = UtfKind | IntKind | LongKind

  predicate OfKind(t: Token, k: Kind) {
    match k
    case UtfKind => t.Utf?
    case IntKind => t.IntTok?
    case LongKind => t.LongTok?
  }

  /** Reads one token of the expected kind at `pos`. */
  function ReadToken(input: seq<Token>, pos: nat, k: Kind): (r: Result<Token>)
    ensures r.Ok? <==> pos < |input| && OfKind(input[pos], k)
    ensures r.Ok? ==> r.value == input[pos]
    ensures r.Err? ==> r.error == (if pos >= |input| then EndOfStream else StreamCorrupted)
  {
    if pos >= |input| then Err(EndOfStream)
    else if !OfKind(input[pos], k) then Err(StreamCorrupted)
    else Ok(input[pos])
  }

  /** A stream whose first tokens are those `writeExternal` emits for s starts with the serialisation of s. */
  lemma SerializedPrefix(input: seq<Token>, s: Sample)
    requires |s.data| + 4 <= |input|
    requires input[0] == Utf(Name(s.sensorType)) && input[1] == IntTok(|s.data|)
    requires forall i | 0 <= i < |s.data| :: input[2 + i] == FloatTok(s.data[i])
    requires input[2 + |s.data|] == LongTok(s.timestamp) && input[3 + |s.data|] == IntTok(s.accuracy)
    ensures Serialize(s) == input[..|s.data| + 4]
  {
    var n := |s.data|;
    var ts := Serialize(s);
    forall i | 0 <= i < n + 4
      ensures ts[i] == input[i]
    {
      if 2 <= i < 2 + n {
        assert ts[i] == ts[2..2 + n][i - 2];
      }
    }
  }

  /**
   * `readExternal` as a value: the sample read from the start of the stream
   * and the number of tokens consumed. It fails with `IllegalArgumentException`
   * for an unknown type name, with `NegativeArraySizeException` for a negative
   * count, and with `EOFException` or a corrupt-stream error when the stream
   * ends early or holds a value of another kind.
   */
  function Deserialize(input: seq<Token>): (r: Result<(Sample, nat)>)
    ensures r.Ok? ==> r.value.1 == |r.value.0.data| + 4 <= |input|
    ensures r.Ok? ==> Serialize(r.value.0) == input[..r.value.1]
  {
    match ReadToken(input, 0, UtfKind)
    case Err(e) => Err(e)
    case Ok(nameTok) =>
      match ValueOf(nameTok.text)
      case Err(e) => Err(e)
      case Ok(sensorType) =>
        match ReadToken(input, 1, IntKind)
        case Err(e) => Err(e)
        case Ok(countTok) =>
          if countTok.i < 0 then Err(NegativeArraySize)
          else
            var count := countTok.i;
            match ReadFloats(input, 2, count)
            case Err(e) => Err(e)
            case Ok(data) =>
              match ReadToken(input, 2 + count, LongKind)
              case Err(e) => Err(e)
              case Ok(tsTok) =>
                match ReadToken(input, 3 + count, IntKind)
                case Err(e) => Err(e)
                case Ok(accTok) =>
                  var s := Sample(sensorType, data, tsTok.l, accTok.i);
                  SerializedPrefix(input, s);
                  Ok((s, count + 4))
  }

  /** Reading back what was written restores the sample, whatever follows on the stream. */
  lemma DeserializeSerialize(s: Sample, rest: seq<Token>)
    ensures Deserialize(Serialize(s) + rest) == Ok((s, |s.data| + 4))
  {
    var input := Serialize(s) + rest;
    var n := |s.data|;
    assert input[0] == Utf(Name(s.sensorType));
    ValueOfName(s.sensorType);
    assert input[1] == IntTok(n);
    forall i | 0 <= i < n
      ensures input[2 + i] == FloatTok(s.data[i])
    {
      assert input[2 + i] == Serialize(s)[2..2 + n][i];
    }
    var r := ReadFloats(input, 2, n);
    assert r.Ok?;
    assert r.value == s.data;
    assert input[2 + n] == LongTok(s.timestamp);
    assert input[3 + n] == IntTok(s.accuracy);
  }

  /** An unknown type name makes reading fail through `valueOf`. */
  lemma UnknownNameRejected(name: string, rest: seq<Token>)
    requires forall t: SensorType :: Name(t) != name
    ensures Deserialize([Utf(name)] + rest) == Err(IllegalArgument)
  {
  }

  /** A negative value count makes reading fail when the array is created. */
  lemma NegativeCountRejected(t: SensorType, count: int, rest: seq<Token>)
    requires count < 0
    ensures Deserialize([Utf(Name(t)), IntTok(count)] + rest) == Err(NegativeArraySize)
  {
    ValueOfName(t);
  }

  class SensorData {
    var sensorType: SensorType
    var data: array<real>
    var timestamp: int
    var accuracy: int

    function Value(): (s: Sample)
      reads this, data
      ensures s.sensorType == sensorType && s.data == data[..]
      ensures s.timestamp == timestamp && s.accuracy == accuracy
    {
      Sample(sensorType, data[..], timestamp, accuracy)
    }

    /** The four-argument constructor; the array is shared, not copied. */
    constructor (sensorType: SensorType, data: array<real>, timestamp: int, accuracy: int)
      ensures this.sensorType == sensorType && this.data == data
      ensures this.timestamp == timestamp && this.accuracy == accuracy
    {
      this.sensorType := sensorType;
      this.data := data;
      this.timestamp := timestamp;
      this.accuracy := accuracy;
    }

    /**
     * `clone`: a new object with a copy of the array. With Java assertions
     * enabled the trailing `assert(false)` throws instead.
     */
    method Clone(assertionsEnabled: bool) returns (r: Result<SensorData>)
      ensures assertionsEnabled <==> r.Err?
      ensures r.Err? ==> r.error == AssertionFailed
      ensures r.Ok? ==> fresh(r.value) && fresh(r.value.data) && r.value.Value() == Value()
    {
      var copy := new real[data.Length];
      forall i | 0 <= i < data.Length {
        copy[i] := data[i];
      }
      var cloned := new SensorData(sensorType, copy, timestamp, accuracy);
      if assertionsEnabled {
        return Err(AssertionFailed);
      }
      return Ok(cloned);
    }

    /**
     * `clone` as its comment intends it: the `assert(false)` guards only the
     * unreachable `CloneNotSupportedException` handler, so the copy is
     * returned whether or not assertions are enabled.
     */
    method CloneIntended() returns (r: SensorData)
      ensures fresh(r) && fresh(r.data) && r.Value() == Value()
    {
      var copy := new real[data.Length];
      forall i | 0 <= i < data.Length {
        copy[i] := data[i];
      }
      r := new SensorData(sensorType, copy, timestamp, accuracy);
    }

    /** `writeExternal`: appends the serialised form of the object to the stream. */
    method WriteExternal(output: seq<Token>) returns (output': seq<Token>)
      ensures output' == output + Serialize(Value())
    {
      var floats: seq<Token> := [];
      for i := 0 to data.Length
        invariant floats == FloatTokens(data[..i])
      {
        FloatTokensSnoc(data[..i], data[i]);
        assert data[..i + 1] == data[..i] + [data[i]];
        floats := floats + [FloatTok(data[i])];
      }
      assert data[..data.Length] == data[..];
      output' := output + [Utf(Name(sensorType)), IntTok(data.Length)] + floats + [LongTok(timestamp), IntTok(accuracy)];
      assert Serialize(Value()) == [Utf(Name(sensorType)), IntTok(data.Length)] + floats + [LongTok(timestamp), IntTok(accuracy)];
    }

    /** The `readFloat` loop of `readExternal`: fills `values` from position 2 of the stream. */
    static method ReadValues(input: seq<Token>, values: array<real>) returns (r: Result<()>)
      modifies values
      ensures r.Ok? <==> ReadFloats(input, 2, values.Length).Ok?
      ensures r.Ok? ==> values[..] == ReadFloats(input, 2, values.Length).value
      ensures r.Err? ==> r.error == ReadFloats(input, 2, values.Length).error
    {
      for i := 0 to values.Length
        invariant ReadFloats(input, 2, i).Ok?
        invariant values[..i] == ReadFloats(input, 2, i).value
      {
        if 2 + i >= |input| {
          ReadFloatsFirstError(input, 2, i, values.Length);
          return Err(EndOfStream);
        }
        if !input[2 + i].FloatTok? {
          ReadFloatsFirstError(input, 2, i, values.Length);
          return Err(StreamCorrupted);
        }
        values[i] := input[2 + i].f;
      }
      assert values[..values.Length] == values[..];
      return Ok(());
    }

    /**
     * `readExternal`: reads the fields from the start of the stream into this
     * object, with a new array for the values; answers the number of tokens
     * consumed, or the exception `Deserialize` names. Fields assigned before an
     * exception keep their new value; the model states only the error then.
     */
    method ReadExternal(input: seq<Token>) returns (r: Result<nat>)
      modifies this
      ensures r.Ok? <==> Deserialize(input).Ok?
      ensures r.Ok? ==> fresh(data) && Value() == Deserialize(input).value.0 && r.value == Deserialize(input).value.1
      ensures r.Err? ==> r.error == Deserialize(input).error
    {
      var nameTok := ReadToken(input, 0, UtfKind);
      if nameTok.Err? {
        return Err(nameTok.error);
      }
      var t := ValueOf(nameTok.value.text);
      if t.Err? {
        return Err(t.error);
      }
      sensorType := t.value;
      var countTok := ReadToken(input, 1, IntKind);
      if countTok.Err? {
        return Err(countTok.error);
      }
      var dataCount := countTok.value.i;
      if dataCount < 0 {
        return Err(NegativeArraySize);
      }
      var values := new real[dataCount];
      data := values;
      var read := ReadValues(input, values);
      if read.Err? {
        return Err(read.error);
      }
      var tsTok := ReadToken(input, 2 + dataCount, LongKind);
      if tsTok.Err? {
        return Err(tsTok.error);
      }
      timestamp := tsTok.value.l;
      var accTok := ReadToken(input, 3 + dataCount, IntKind);
      if accTok.Err? {
        return Err(accTok.error);
      }
      accuracy := accTok.value.i;
      ghost var s := Sample(t.value, values[..], tsTok.value.l, accTok.value.i);
      assert Deserialize(input) == Ok((s, dataCount + 4));
      assert Value() == s;
      return Ok(dataCount + 4);
    }
  }

  /**
   * `clone` as written reaches `assert(false)` after the successful copy too,
   * so with assertions enabled every call throws, not only the unreachable
   * handler path.
   */
  method CloneAlwaysFailsWithAssertions(s: SensorData) returns (r: Result<SensorData>)
    ensures r == Err(AssertionFailed)
  {
    r := s.Clone(true);
  }
}
