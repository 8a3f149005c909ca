/**
 * Values shared by every part of the model: optional values, the outcome of an
 * operation that can throw, the Java exceptions the modelled code throws, the
 * sensor types known to the app, and Java's 32-bit integer arithmetic.
 */
module Common {

  /** A Java reference that may be null, or a lookup that may find nothing. */
  datatype Option<+T> = None | Some(value: T)

  /** The exceptions thrown by the modelled code (by name, without message). */
  datatype JavaError =
    | NullPointer
    | IndexOutOfBounds
    | InvalidParameter
    | NumberFormat
    | IllegalArgument
    | UnknownHost
    | NoSuchMethod
    | NoSuchElement
    | NegativeArraySize
    | EndOfStream
    | StreamCorrupted
    | Runtime
    | AssertionFailed
    | Arithmetic

  /** Either the normal result of a Java method or the exception it throws. */
  datatype Result<+T> = Ok(value: T) | Err(error: JavaError)

  /** The sensor types of the app (enum `SensorType`, in declaration order). */
  datatype SensorType =
    | Accelerometer
    | Gyroscope
    | Magnetometer
    | LinearAcceleration
    | RotationVector
    | Orientation
    | GameRotationVector
    | Gravity

  /** `SensorType.values()`: every sensor type, each once. */
  const AllSensorTypes: seq<SensorType> :=
    [Accelerometer, Gyroscope, Magnetometer, LinearAcceleration,
     RotationVector, Orientation, GameRotationVector, Gravity]

  lemma AllSensorTypesComplete(t: SensorType)
    ensures t in AllSensorTypes
  {
  }

  const TWO_32: int := 0x1_0000_0000
  const MIN_INT: int := -0x8000_0000
  const MAX_INT: int := 0x7FFF_FFFF

  /** A value of Java's `int` type. */
  predicate IsInt32(x: int) {
    MIN_INT <= x <= MAX_INT
  }

  /** Java's `int` wrap-around: the 32-bit value congruent to x modulo 2^32. */
  function WrapInt32(x: int): (r: int)
    ensures IsInt32(r)
    ensures (r - x) % TWO_32 == 0
    ensures IsInt32(x) ==> r == x
  {
    var u := x % TWO_32;
    if u > MAX_INT then u - TWO_32 else u
  }
}
