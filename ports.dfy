/**
 * The discovery-port fields of the app: `Integer.valueOf` on the text of the
 * field, then a range check. The discovery screen (`getDiscoveryPort`) falls
 * back to port 8888 on an empty field and throws otherwise; the options screen
 * (`isDiscoveryPortValid`) answers with a boolean. The error text shown next to
 * the field is kept as a `FieldMark`.
 */
module Ports {
  import opened Common

  const DefaultDiscoveryPort: int := 8888
  const LowestPort: int := 1024
  const HighestPort: int := 65535

  // ---------------------------------------------------------------------------
  // Integer.valueOf (decimal, ASCII digits)

  predicate IsDigit(c: char) {
    '0' <= c <= '9'
  }

  predicate AllDigits(s: string) {
    forall i | 0 <= i < |s| :: IsDigit(s[i])
  }

  function DigitValue(c: char): (d: nat)
    requires IsDigit(c)
    ensures d < 10
  {
    c as int - '0' as int
  }

  function DigitChar(d: nat): (c: char)
    requires d < 10
    ensures IsDigit(c) && DigitValue(c) == d
  {
    ('0' as int + d) as char
  }

  /** The value of a string of decimal digits, most significant first. */
  function DigitsValue(s: string): nat
    requires AllDigits(s)
  {
    if s == [] then 0 else DigitsValue(s[..|s| - 1]) * 10 + DigitValue(s[|s| - 1])
  }

  /** The text after an optional leading sign. */
  function Unsigned(s: string): string {
    if |s| > 0 && (s[0] == '-' || s[0] == '+') then s[1..] else s
  }

  /** A sign (optional) followed by at least one digit. */
  predicate WellFormed(s: string) {
    Unsigned(s) != [] && AllDigits(Unsigned(s))
  }

  /** The value a well-formed numeral denotes. */
  function SignedValue(s: string): int
    requires WellFormed(s)
  {
    if s[0] == '-' then -(DigitsValue(Unsigned(s)) as int) else DigitsValue(Unsigned(s))
  }

  /**
   * `Integer.valueOf(s)`: the value of an optionally signed decimal numeral,
   * or `NumberFormatException` when the text is empty, is a bare sign,
   * contains a non-digit or does not fit a Java `int`.
   */
  function ParseInt(s: string): (r: Result<int>)
    ensures r.Ok? ==> IsInt32(r.value)
    ensures r.Ok? <==> WellFormed(s) && IsInt32(SignedValue(s))
    ensures r.Ok? ==> r.value == SignedValue(s)
    ensures r.Err? ==> r.error == NumberFormat
    ensures r.Ok? ==> (r.value < 0 <==> s[0] == '-' && DigitsValue(Unsigned(s)) != 0)
  {
    if s == [] then Err(NumberFormat)
    else
      var body := Unsigned(s);
      if body == [] || !AllDigits(body) then Err(NumberFormat)
      else
        var v := SignedValue(s);
        if IsInt32(v) then Ok(v) else Err(NumberFormat)
  }

  /** Decimal text of a natural number without leading zeros. */
  function ShowNat(n: nat): (s: string)
    ensures s != [] && AllDigits(s)
    decreases n
  {
    if n < 10 then [DigitChar(n)] else ShowNat(n / 10) + [DigitChar(n % 10)]
  }

  /** Decimal text of an integer, as `Integer.toString` writes it. */
  function ShowInt(n: int): (s: string)
    ensures s != []
  {
    if n < 0 then "-" + ShowNat(-n) else ShowNat(n)
  }

  lemma {:induction false} DigitsOfShowNat(n: nat)
    ensures DigitsValue(ShowNat(n)) == n
    decreases n
  {
    if n >= 10 {
      var s := ShowNat(n);
      assert s[..|s| - 1] == ShowNat(n / 10);
      DigitsOfShowNat(n / 10);
    }
  }

  /** `Integer.valueOf(Integer.toString(n)) == n` for every Java int. */
  lemma ParseShowRoundTrip(n: int)
    requires IsInt32(n)
    ensures ParseInt(ShowInt(n)) == Ok(n)
  {
    var s := ShowInt(n);
    var t := ShowNat(if n < 0 then -n else n);
    DigitsOfShowNat(if n < 0 then -n else n);
    if n < 0 {
      assert s == "-" + t && s[0] == '-';
      assert Unsigned(s) == t;
    } else {
      assert s == t && IsDigit(s[0]);
      assert Unsigned(s) == t;
    }
    assert WellFormed(s);
    assert SignedValue(s) == n;
  }

  /** Text that is not a (signed) numeral, like "80a" or "-", is rejected. */
  lemma MalformedRejected(s: string)
    requires !WellFormed(s)
    ensures ParseInt(s) == Err(NumberFormat)
  {
  }

  // ---------------------------------------------------------------------------
  // The two port checks

  /** What the field shows after a check: untouched, cleared, or one of the error texts. */
  datatype FieldMark = Untouched | Cleared | NumbersOnly | BelowReserved | AboveNonexistent

  /** Outcome of `getDiscoveryPort`: the port or the exception, and the field's error mark. */
  datatype PortOutcome = PortOutcome(port: Result<int>, mark: FieldMark)

  /** `DiscoveryActivity.getDiscoveryPort` on the text of the port field. */
  function GetDiscoveryPort(content: string): (r: PortOutcome)
    ensures content == [] ==> r == PortOutcome(Ok(DefaultDiscoveryPort), Untouched)
    ensures r.port.Ok? ==> r.port.value == DefaultDiscoveryPort || LowestPort <= r.port.value <= HighestPort
    ensures content != [] ==>
      (r.port == Err(NumberFormat) <==> ParseInt(content).Err?) &&
      (r.port == Err(InvalidParameter) <==> ParseInt(content).Ok? && !(LowestPort <= ParseInt(content).value <= HighestPort)) &&
      (r.port.Ok? <==> ParseInt(content).Ok? && LowestPort <= ParseInt(content).value <= HighestPort)
    ensures content != [] && r.port.Ok? ==> r.port == ParseInt(content) && r.mark == Cleared
  {
    if content == [] then PortOutcome(Ok(DefaultDiscoveryPort), Untouched)
    else
      match ParseInt(content)
      case Err(_) => PortOutcome(Err(NumberFormat), NumbersOnly)
      case Ok(port) =>
        if port < LowestPort then PortOutcome(Err(InvalidParameter), BelowReserved)
        else if port > HighestPort then PortOutcome(Err(InvalidParameter), AboveNonexistent)
        else PortOutcome(Ok(port), Cleared)
  }

  /** Outcome of `isDiscoveryPortValid`: the answer and the field's error mark. */
  datatype Validity = Validity(valid: bool, mark: FieldMark)

  /** `OptionsActivity.isDiscoveryPortValid` on the text of the port field. */
  function IsDiscoveryPortValid(content: string): (r: Validity)
    ensures r.valid <==> ParseInt(content).Ok? && LowestPort <= ParseInt(content).value <= HighestPort
    ensures r.valid <==> r.mark == Cleared
    ensures ParseInt(content).Err? ==> r.mark == NumbersOnly
  {
    match ParseInt(content)
    case Err(_) => Validity(false, NumbersOnly)
    case Ok(port) =>
      if port < LowestPort then Validity(false, BelowReserved)
      else if port > HighestPort then Validity(false, AboveNonexistent)
      else Validity(true, Cleared)
  }

  /**
   * The two screens agree on every non-empty field and show the same mark;
   * they differ only on the empty field, which the options screen rejects.
   */
  lemma ScreensAgree(content: string)
    ensures content != [] ==>
      (IsDiscoveryPortValid(content).valid <==> GetDiscoveryPort(content).port.Ok?) &&
      IsDiscoveryPortValid(content).mark == GetDiscoveryPort(content).mark
    ensures content == [] ==> !IsDiscoveryPortValid(content).valid && GetDiscoveryPort(content).port == Ok(DefaultDiscoveryPort)
  {
  }

  /** 1023 and 65536 are rejected, 1024 and 65535 accepted, written in decimal. */
  lemma PortBoundaries()
    ensures !IsDiscoveryPortValid(ShowInt(1023)).valid
    ensures IsDiscoveryPortValid(ShowInt(1024)).valid
    ensures IsDiscoveryPortValid(ShowInt(65535)).valid
    ensures !IsDiscoveryPortValid(ShowInt(65536)).valid
    ensures GetDiscoveryPort(ShowInt(1023)).port == Err(InvalidParameter)
    ensures GetDiscoveryPort(ShowInt(65536)).port == Err(InvalidParameter)
  {
    ParseShowRoundTrip(1023);
    ParseShowRoundTrip(1024);
    ParseShowRoundTrip(65535);
    ParseShowRoundTrip(65536);
  }
}
