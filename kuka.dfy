/**
 * `KukaUtil`: the clamp used for joint targets and the table of joint ranges
 * of the LBR iiwa robot arm. Angles are degrees, modelled as reals.
 */
module KukaUtil {
  import opened Common

  /**
   * The joints of the arm. `ThirdRotator` is a joint name used elsewhere in
   * the server that the range table does not list.
   */
  datatype Joint =
    | BaseRotator
    | BaseTilter
    | SecondRotator
    | SecondTilter
    | ToolArmRotator
    | ToolTilter
    | ToolRotator
    | ThirdRotator

  /**
   * `clampToJointRange` as written: values above `max` give `max`, and values
   * below `-max` also give `+max`, not `-max`.
   */
  function ClampToJointRange(value: real, max: real): (r: real)
    ensures value > max ==> r == max
    ensures !(value > max) && value < -max ==> r == max
    ensures -max <= value <= max ==> r == value
  {
    if value > max then max
    else if value < -max then max
    else value
  }

  /** For a non-negative bound the result lies in [-max, max] (with the sign flip, in fact in (-max, max] below). */
  lemma ClampBounded(value: real, max: real)
    requires max >= 0.0
    ensures -max <= ClampToJointRange(value, max) <= max
  {
  }

  /** The sign flip: a value far below the range ends up at the upper end. */
  lemma ClampFlipsLowValues()
    ensures ClampToJointRange(-200.0, 170.0) == 170.0
  {
  }

  /** The clamp the documentation describes, with `-max` as minimum. */
  function ClampSymmetric(value: real, max: real): (r: real)
    requires max >= 0.0
    ensures -max <= r <= max
    ensures -max <= value <= max ==> r == value
    ensures value < -max ==> r == -max
    ensures value > max ==> r == max
  {
    if value > max then max
    else if value < -max then -max
    else value
  }

  /** The written clamp and the documented one differ exactly below the range. */
  lemma ClampDiffersOnlyBelow(value: real, max: real)
    requires max > 0.0
    ensures ClampToJointRange(value, max) != ClampSymmetric(value, max) <==> value < -max
  {
  }

  /** `getRange`: the range of a joint in degrees; an unlisted joint throws `RuntimeException`. */
  function GetRange(joint: Joint): (r: Result<real>)
    ensures r.Err? <==> joint == ThirdRotator
    ensures r.Err? ==> r.error == Runtime
    ensures joint in {BaseRotator, SecondRotator, ToolArmRotator} ==> r == Ok(340.0)
    ensures joint in {BaseTilter, SecondTilter, ToolTilter} ==> r == Ok(240.0)
    ensures joint == ToolRotator ==> r == Ok(350.0)
  {
    match joint
    case BaseRotator => Ok(340.0)
    case BaseTilter => Ok(240.0)
    case SecondRotator => Ok(340.0)
    case SecondTilter => Ok(240.0)
    case ToolArmRotator => Ok(340.0)
    case ToolTilter => Ok(240.0)
    case ToolRotator => Ok(350.0)
    case ThirdRotator => Err(Runtime)
  }
}

/**
 * `MarbleLabyrinthControl`: tilts the two topmost joints of the arm after the
 * phone's orientation. Two app buttons flip the direction of each joint. The
 * commands sent to the robot are recorded as a list of joint targets.
 */
module MarbleLabyrinth {
  import opened Common
  import opened KukaUtil

  const ROLL_AXIS: nat := 0
  const PITCH_AXIS: nat := 1
  const RollJoint: Joint := ToolArmRotator
  const PitchJoint: Joint := ToolTilter
  const FLIP_ROTATOR_BUTTON: int := 1
  const FLIP_TILTER_BUTTON: int := 2
  /** The factor `.03f` applied to sensor value times user sensitivity. */
  const Gain: real := 0.03

  /** Half the range of the roll joint: 340 / 2. */
  function RollMaximum(): (m: real)
    ensures m == 170.0
  {
    GetRange(RollJoint).value / 2.0
  }

  /** Half the range of the pitch joint: 240 / 2. */
  function PitchMaximum(): (m: real)
    ensures m == 120.0
  {
    GetRange(PitchJoint).value / 2.0
  }

  /** One `rotateJointTarget` call. */
  datatype Target = Target(joint: Joint, degrees: real)

  /** The seven targets of `onResetPosition`, in the order they are sent. */
  const ResetTargets: seq<Target> := [
    Target(BaseRotator, 0.0), Target(SecondRotator, 0.0), Target(ToolArmRotator, 0.0),
    Target(ToolRotator, 10.0), Target(BaseTilter, 45.0), Target(SecondTilter, -45.0),
    Target(ToolTilter, 0.0)]

  /** The roll and pitch targets for one sample, before the robot is told. */
  function DataTargets(data: seq<real>, sensitivity: real, rollFlipped: bool, pitchFlipped: bool): (r: Result<seq<Target>>)
    ensures r.Err? <==> |data| < 2
    ensures r.Ok? ==> |r.value| == 2 && r.value[0].joint == RollJoint && r.value[1].joint == PitchJoint
    ensures r.Ok? ==> (r.value[0].degrees ==
      (if rollFlipped then -1.0 else 1.0) * ClampToJointRange(data[ROLL_AXIS] * sensitivity * Gain, 170.0))
    ensures r.Ok? ==> (r.value[1].degrees ==
      (if pitchFlipped then -1.0 else 1.0) * ClampToJointRange(data[PITCH_AXIS] * sensitivity * Gain, 120.0))
  {
    if |data| <= ROLL_AXIS || |data| <= PITCH_AXIS then Err(IndexOutOfBounds)
    else
      var roll := ClampToJointRange(data[ROLL_AXIS] * sensitivity * Gain, RollMaximum());
      var pitch := ClampToJointRange(data[PITCH_AXIS] * sensitivity * Gain, PitchMaximum());
      var roll' := if rollFlipped then roll * -1.0 else roll;
      var pitch' := if pitchFlipped then pitch * -1.0 else pitch;
      Ok([Target(RollJoint, roll'), Target(PitchJoint, pitch')])
  }

  /** Every target `onData` sends stays within the joint's half range, in both directions. */
  lemma DataTargetsBounded(data: seq<real>, sensitivity: real, rollFlipped: bool, pitchFlipped: bool)
    requires |data| >= 2
    ensures var t := DataTargets(data, sensitivity, rollFlipped, pitchFlipped).value;
      -170.0 <= t[0].degrees <= 170.0 && -120.0 <= t[1].degrees <= 120.0
  {
    ClampBounded(data[ROLL_AXIS] * sensitivity * Gain, 170.0);
    ClampBounded(data[PITCH_AXIS] * sensitivity * Gain, 120.0);
  }

  /** Flipping a joint negates exactly its target and leaves the other one. */
  lemma FlipNegates(data: seq<real>, sensitivity: real, rollFlipped: bool, pitchFlipped: bool)
    requires |data| >= 2
    ensures var t := DataTargets(data, sensitivity, rollFlipped, pitchFlipped).value;
      var u := DataTargets(data, sensitivity, !rollFlipped, pitchFlipped).value;
      u[0].degrees == -t[0].degrees && u[1] == t[1]
    ensures var t := DataTargets(data, sensitivity, rollFlipped, pitchFlipped).value;
      var u := DataTargets(data, sensitivity, rollFlipped, !pitchFlipped).value;
      u[1].degrees == -t[1].degrees && u[0] == t[0]
  {
  }

  class MarbleLabyrinthControl {
    /** `mRotatorIsFlipped` */
    var rotatorFlipped: bool
    /** `mTilterIsFlipped` */
    var tilterFlipped: bool
    /** Every `rotateJointTarget` call made so far, oldest first. */
    var sent: seq<Target>

    /** The constructor leaves both flags false and moves the arm to its reset position. */
    constructor ()
      ensures !rotatorFlipped && !tilterFlipped
      ensures sent == ResetTargets
    {
      rotatorFlipped := false;
      tilterFlipped := false;
      sent := ResetTargets;
    }

    /** `onResetPosition`: sends the seven fixed targets. */
    method OnResetPosition()
      modifies this
      ensures sent == old(sent) + ResetTargets
      ensures rotatorFlipped == old(rotatorFlipped) && tilterFlipped == old(tilterFlipped)
    {
      sent := sent + ResetTargets;
    }

    /**
     * `onButtonClick`: release events are ignored; a press of button 1 flips
     * the roll direction, of button 2 the pitch direction, of any other button
     * nothing.
     */
    method OnButtonClick(id: int, isHold: bool)
      modifies this
      ensures rotatorFlipped == (if isHold && id == FLIP_ROTATOR_BUTTON then !old(rotatorFlipped) else old(rotatorFlipped))
      ensures tilterFlipped == (if isHold && id == FLIP_TILTER_BUTTON then !old(tilterFlipped) else old(tilterFlipped))
      ensures sent == old(sent)
    {
      if !isHold {
        return;
      }
      if id == FLIP_ROTATOR_BUTTON {
        rotatorFlipped := !rotatorFlipped;
      } else if id == FLIP_TILTER_BUTTON {
        tilterFlipped := !tilterFlipped;
      }
    }

    /**
     * `onData`: sends the roll target, then the pitch target; a sample with
     * fewer than two values throws `ArrayIndexOutOfBoundsException` before
     * anything is sent.
     */
    method OnData(data: seq<real>, sensitivity: real) returns (r: Result<()>)
      modifies this
      ensures rotatorFlipped == old(rotatorFlipped) && tilterFlipped == old(tilterFlipped)
      ensures r.Err? <==> |data| < 2
      ensures r.Err? ==> sent == old(sent) && r.error == IndexOutOfBounds
      ensures r.Ok? ==> sent == old(sent) + DataTargets(data, sensitivity, rotatorFlipped, tilterFlipped).value
    {
      if |data| <= ROLL_AXIS || |data| <= PITCH_AXIS {
        return Err(IndexOutOfBounds);
      }
      var roll := ClampToJointRange(data[ROLL_AXIS] * sensitivity * Gain, RollMaximum());
      var pitch := ClampToJointRange(data[PITCH_AXIS] * sensitivity * Gain, PitchMaximum());
      if rotatorFlipped {
        roll := roll * -1.0;
      }
      if tilterFlipped {
        pitch := pitch * -1.0;
      }
      sent := sent + [Target(RollJoint, roll)];
      sent := sent + [Target(PitchJoint, pitch)];
      return Ok(());
    }
  }

  /** Two presses of the same flip button restore both flags. */
  method TwoPressesRestore(m: MarbleLabyrinthControl, id: int)
    modifies m
    ensures m.rotatorFlipped == old(m.rotatorFlipped) && m.tilterFlipped == old(m.tilterFlipped)
  {
    m.OnButtonClick(id, true);
    m.OnButtonClick(id, true);
  }
}
