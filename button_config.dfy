/**
 * `ButtonConfig` of the NES server: which AWT key code each of the eight
 * gamepad buttons of the app presses, and the AWT key code of a lower-case
 * letter.
 */
module ButtonConfigs {
  import opened Common

  /** Button ids sent by the app (`NesServer.A_BUTTON` ... `L_BUTTON`). */
  const A_BUTTON: int := 0
  const B_BUTTON: int := 1
  const X_BUTTON: int := 2
  const Y_BUTTON: int := 3
  const SELECT_BUTTON: int := 4
  const START_BUTTON: int := 5
  const R_BUTTON: int := 6
  const L_BUTTON: int := 7

  /** AWT's `KeyEvent.VK_A`; `VK_B` ... `VK_Z` follow consecutively. */
  const VK_A: int := 0x41
  const VK_Z: int := 0x5A

  /** The key codes of the eight buttons; the no-argument constructor leaves all of them 0. */
  datatype ButtonConfig = ButtonConfig(a: int, b: int, x: int, y: int, select: int, start: int, r: int, l: int)

  const DefaultConfig: ButtonConfig := ButtonConfig(0, 0, 0, 0, 0, 0, 0, 0)

  /** The key codes in button-id order. */
  function KeyCodes(c: ButtonConfig): (s: seq<int>)
    ensures |s| == 8
  {
    [c.a, c.b, c.x, c.y, c.select, c.start, c.r, c.l]
  }

  /** `mapInput`: the key code of a button id, or null for an unknown id. */
  function MapInput(c: ButtonConfig, id: int): (r: Option<int>)
    ensures r.Some? <==> 0 <= id < 8
    ensures r.Some? ==> r.value == KeyCodes(c)[id]
  {
    if id == A_BUTTON then Some(c.a)
    else if id == B_BUTTON then Some(c.b)
    else if id == X_BUTTON then Some(c.x)
    else if id == Y_BUTTON then Some(c.y)
    else if id == SELECT_BUTTON then Some(c.select)
    else if id == START_BUTTON then Some(c.start)
    else if id == R_BUTTON then Some(c.r)
    else if id == L_BUTTON then Some(c.l)
    else None
  }

  /** Each field is reached by its own id: A by 0, ..., L by 7. */
  lemma MapInputFields(c: ButtonConfig)
    ensures MapInput(c, A_BUTTON) == Some(c.a) && MapInput(c, B_BUTTON) == Some(c.b)
    ensures MapInput(c, X_BUTTON) == Some(c.x) && MapInput(c, Y_BUTTON) == Some(c.y)
    ensures MapInput(c, SELECT_BUTTON) == Some(c.select) && MapInput(c, START_BUTTON) == Some(c.start)
    ensures MapInput(c, R_BUTTON) == Some(c.r) && MapInput(c, L_BUTTON) == Some(c.l)
  {
  }

  /** The 26 lower-case letters. */
  const Letters: string := "abcdefghijklmnopqrstuvwxyz"

  predicate IsLowerLetter(ch: char) {
    'a' <= ch <= 'z'
  }

  /**
   * `getKeyEvent`: 'a' ... 'z' give `VK_A` ... `VK_Z`; every other character,
   * including upper-case letters and digits, throws `IllegalArgumentException`.
   */
  function GetKeyEvent(ch: char): (r: Result<int>)
    ensures r.Ok? <==> IsLowerLetter(ch)
    ensures r.Ok? ==> VK_A <= r.value <= VK_Z
    ensures r.Err? ==> r.error == IllegalArgument
  {
    if IsLowerLetter(ch) then Ok(VK_A + (ch as int - 'a' as int)) else Err(IllegalArgument)
  }

  /** The letter typed by a key code in `VK_A` ... `VK_Z`. */
  function LetterOf(code: int): (ch: char)
    requires VK_A <= code <= VK_Z
    ensures IsLowerLetter(ch)
  {
    ('a' as int + (code - VK_A)) as char
  }

  /** Letter and key code are inverse to each other; so `getKeyEvent` is injective on 'a' ... 'z'. */
  lemma KeyEventRoundTrip(ch: char, code: int)
    ensures IsLowerLetter(ch) ==> LetterOf(GetKeyEvent(ch).value) == ch
    ensures VK_A <= code <= VK_Z ==> GetKeyEvent(LetterOf(code)) == Ok(code)
  {
  }

  lemma KeyEventInjective(c1: char, c2: char)
    requires GetKeyEvent(c1).Ok? && GetKeyEvent(c2).Ok?
    requires GetKeyEvent(c1) == GetKeyEvent(c2)
    ensures c1 == c2
  {
    KeyEventRoundTrip(c1, 0);
    KeyEventRoundTrip(c2, 0);
  }

  /** The letters in alphabetical order get the consecutive codes `VK_A` ... `VK_Z`. */
  lemma KeyEventTable(i: nat)
    requires i < |Letters|
    ensures GetKeyEvent(Letters[i]) == Ok(VK_A + i)
  {
  }

  /** Upper-case letters and digits are rejected. */
  lemma KeyEventRejects()
    ensures GetKeyEvent('A') == Err(IllegalArgument)
    ensures GetKeyEvent('0') == Err(IllegalArgument)
  {
  }
}
