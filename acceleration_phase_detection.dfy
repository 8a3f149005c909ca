/**
 * `AccelerationPhaseDetection` of the NES server: turns the vertical
 * acceleration of the phone into up and down movements. A movement starts a
 * cycle and fires its callback once; the cycle then waits for the opposite
 * acceleration (phase 2), the same direction again (phase 3) and rest, or for
 * a timeout, before another movement can start. Both cycles share one
 * counter.
 */
module AccelerationPhases {
  import opened Common
  import opened Devices
  import opened Sensors

  /** `TIMEOUT` */
  const TIMEOUT: int := 10
  /** The acceleration beyond which the z value counts as up or down. */
  const LIMIT: real := 500.0

  /** A call on the `AccelerationListener`. */
  datatype Movement = Up | Down

  /** The classification of one z value; never both. */
  function Classify(z: real): (r: (bool, bool))
    ensures r.0 <==> z > LIMIT
    ensures r.1 <==> z < -LIMIT
    ensures !(r.0 && r.1)
  {
    (z > LIMIT, z < -LIMIT)
  }

  /** The flags of one cycle: started, opposite acceleration seen, same direction seen again. */
  datatype Cycle = Cycle(active: bool, phase2: bool, phase3: bool)

  /** A cycle that is not running and carries no phase. */
  const Idle := Cycle(false, false, false)

  /** The state of the detector: the down cycle, the up cycle and the shared `mTimeoutCounter`. */
  datatype Phases = Phases(down: Cycle, up: Cycle, counter: int)

  /** At most one cycle is active; phase 3 implies phase 2; the counter stays within 0 .. TIMEOUT + 1. */
  predicate Consistent(p: Phases) {
    !(p.down.active && p.up.active) &&
    (p.down.phase3 ==> p.down.phase2) && (p.up.phase3 ==> p.up.phase2) &&
    0 <= p.counter <= TIMEOUT + 1
  }

  /** What the design expects besides: an inactive cycle carries no phase. */
  predicate Tidy(p: Phases) {
    (!p.down.active ==> !p.down.phase2 && !p.down.phase3) && (!p.up.active ==> !p.up.phase2 && !p.up.phase3)
  }

  /**
   * One half of `onData(up, down)` for the cycle `c` whose own movement is
   * `start` and whose opposite movement is `opposite`, with `rest` meaning
   * neither flag is set. An active cycle ends at rest after phase 3, or when
   * the counter, incremented otherwise, was already past `TIMEOUT`. Unless
   * `corrected`, the phase updates run even after that reset. An inactive
   * cycle starts on its movement; the third component says whether the
   * listener was called.
   */
  function CycleStep(c: Cycle, counter: int, start: bool, opposite: bool, rest: bool, corrected: bool): (Cycle, int, bool)
  {
    var (c1, n1) :=
      if !c.active then (c, counter)
      else
        var ended := c.phase3 && rest;
        var reset := ended || counter > TIMEOUT;
        var n := if ended then counter else counter + 1;
        var c0 := if reset then Idle else c;
        var n0 := if reset then 0 else n;
        if corrected && reset then (c0, n0)
        else
          var c2 := if c0.phase2 && start then c0.(phase3 := true) else c0;
          (if opposite then c2.(phase2 := true) else c2, n0);
    if !c1.active && start then (c1.(active := true), n1, true) else (c1, n1, false)
  }

  /**
   * `onData(up, down)`: the down half runs unless an up cycle is active, then
   * the up half unless a down cycle is active (after the down half). Gives the
   * new state and the listener calls, in order. `corrected` skips the phase
   * updates of a cycle that was just reset.
   */
  function Step(p: Phases, up: bool, down: bool, corrected: bool): (Phases, seq<Movement>)
  {
    var rest := !up && !down;
    var (d, n1, firedDown) :=
      if !p.up.active then CycleStep(p.down, p.counter, down && !up, up && !down, rest, corrected)
      else (p.down, p.counter, false);
    var (u, n2, firedUp) :=
      if !d.active then CycleStep(p.up, n1, up && !down, down && !up, rest, corrected)
      else (p.up, n1, false);
    (Phases(d, u, n2), (if firedDown then [Down] else []) + (if firedUp then [Up] else []))
  }

  /** Both versions keep the state consistent, and the corrected one keeps it tidy. */
  lemma StepConsistent(p: Phases, up: bool, down: bool, corrected: bool)
    requires Consistent(p)
    ensures Consistent(Step(p, up, down, corrected).0)
    ensures corrected && Tidy(p) ==> Tidy(Step(p, up, down, corrected).0)
  {
  }

  /**
   * At most one callback per sample: a movement fires when no cycle is active
   * or the running cycle has timed out, and never while the other cycle runs
   * (a down movement never interrupts an up cycle).
   */
  lemma StepMovements(p: Phases, up: bool, down: bool, corrected: bool)
    requires Consistent(p)
    ensures Step(p, up, down, corrected).1 ==
      if down && !up && !p.up.active && (!p.down.active || p.counter > TIMEOUT) then [Down]
      else if up && !down && (!(p.up.active || p.down.active) || p.counter > TIMEOUT) then [Up]
      else []
  {
  }

  /** With no cycle active a movement starts its cycle, and nothing else changes. */
  lemma StepIdle(p: Phases, up: bool, down: bool, corrected: bool)
    requires Consistent(p) && !p.down.active && !p.up.active
    ensures var q := Step(p, up, down, corrected).0;
      q == Phases(p.down.(active := down && !up), p.up.(active := up && !down), p.counter)
  {
  }

  /**
   * An active down cycle that has reached phase 3 ends at rest; otherwise it
   * advances one sample, or is reset once the counter is past `TIMEOUT`. The
   * up cycle is untouched except when a timed-out down cycle lets an up
   * movement start it.
   */
  lemma StepDown(p: Phases, up: bool, down: bool, corrected: bool)
    requires Consistent(p) && p.down.active
    ensures var q := Step(p, up, down, corrected).0;
      if p.down.phase3 && !up && !down then
        q == Phases(Idle, p.up, 0)
      else if p.counter <= TIMEOUT then
        q == Phases(Cycle(true, p.down.phase2 || (up && !down), p.down.phase3 || (p.down.phase2 && down && !up)),
                    p.up, p.counter + 1)
      else
        q == Phases(Cycle(down && !up, !corrected && up && !down, false), p.up.(active := up && !down), 0)
  {
  }

  /** The same for an active up cycle; the down cycle is untouched. */
  lemma StepUp(p: Phases, up: bool, down: bool, corrected: bool)
    requires Consistent(p) && p.up.active
    ensures var q := Step(p, up, down, corrected).0;
      if p.up.phase3 && !up && !down then
        q == Phases(p.down, Idle, 0)
      else if p.counter <= TIMEOUT then
        q == Phases(p.down, Cycle(true, p.up.phase2 || (down && !up), p.up.phase3 || (p.up.phase2 && up && !down)),
                    p.counter + 1)
      else
        q == Phases(p.down, Cycle(up && !down, !corrected && down && !up, false), 0)
  {
  }

  class AccelerationPhaseDetection {
    var downCycle: bool
    var downPhase2: bool
    var downPhase3: bool
    var upCycle: bool
    var upPhase2: bool
    var upPhase3: bool
    /** `mTimeoutCounter` */
    var counter: int
    /** The listener calls made so far, oldest first. */
    var movements: seq<Movement>

    /** The six flags and the counter as a value. */
    function State(): Phases
      reads this
    {
      Phases(Cycle(downCycle, downPhase2, downPhase3), Cycle(upCycle, upPhase2, upPhase3), counter)
    }

    ghost predicate Valid()
      reads this
    {
      Consistent(State())
    }

    ghost predicate Clean()
      reads this
    {
      Tidy(State())
    }

    constructor ()
      ensures Valid() && Clean() && State() == Phases(Idle, Idle, 0) && movements == []
    {
      downCycle, downPhase2, downPhase3 := false, false, false;
      upCycle, upPhase2, upPhase3 := false, false, false;
      counter := 0;
      movements := [];
    }

    /**
     * `onData(networkDevice, sensorData)`: classifies `data[2]` and takes one
     * step; a sample with fewer than three values throws
     * `ArrayIndexOutOfBoundsException` and changes nothing.
     */
    method OnData(origin: Option<NetworkDevice>, sensorData: SensorData) returns (r: Result<()>)
      requires Valid()
      modifies this
      ensures Valid()
      ensures r.Err? <==> sensorData.data.Length <= 2
      ensures r.Err? ==> r.error == IndexOutOfBounds && State() == old(State()) && movements == old(movements)
      ensures r.Ok? ==>
        var step := Step(old(State()), Classify(sensorData.data[2]).0, Classify(sensorData.data[2]).1, false);
        State() == step.0 && movements == old(movements) + step.1
    {
      if sensorData.data.Length <= 2 {
        return Err(IndexOutOfBounds);
      }
      var c := Classify(sensorData.data[2]);
      OnMovement(c.0, c.1);
      return Ok(());
    }

    /**
     * `onData(up, down)` as written. When a cycle ends by timeout, the
     * phase updates that follow in the same call still run, so a phase flag
     * can outlive its cycle.
     */
    method OnMovement(up: bool, down: bool)
      requires Valid()
      modifies this
      ensures Valid()
      ensures State() == Step(old(State()), up, down, false).0
      ensures movements == old(movements) + Step(old(State()), up, down, false).1
    {
      if !upCycle {
        DownHalf(up, down, false);
      }
      if !downCycle {
        UpHalf(up, down, false);
      }
    }

    /**
     * `onData(up, down)` with the phase updates skipped once the cycle has
     * been reset, so that a new cycle starts without phases.
     */
    method OnMovementCorrected(up: bool, down: bool)
      requires Valid() && Clean()
      modifies this
      ensures Valid() && Clean()
      ensures State() == Step(old(State()), up, down, true).0
      ensures movements == old(movements) + Step(old(State()), up, down, true).1
    {
      if !upCycle {
        DownHalf(up, down, true);
      }
      if !downCycle {
        UpHalf(up, down, true);
      }
    }

    /** The down half of `onData(up, down)`; `corrected` skips the phase updates after a reset. */
    method DownHalf(up: bool, down: bool, corrected: bool)
      modifies this
      ensures var r := CycleStep(old(State()).down, old(counter), down && !up, up && !down, !up && !down, corrected);
        State() == Phases(r.0, old(State()).up, r.1) && movements == old(movements) + (if r.2 then [Down] else [])
    {
      if downCycle {
        var reset := downPhase3 && !up && !down;
        if !reset {
          reset := counter > TIMEOUT;
          counter := counter + 1;
        }
        if reset {
          downCycle, downPhase2, downPhase3 := false, false, false;
          counter := 0;
        }
        if !(corrected && reset) {
          if downPhase2 && down && !up {
            downPhase3 := true;
          }
          if up && !down {
            downPhase2 := true;
          }
        }
      }
      if !downCycle && down && !up {
        downCycle := true;
        movements := movements + [Down];
      }
    }

    /** The up half of `onData(up, down)`; `corrected` skips the phase updates after a reset. */
    method UpHalf(up: bool, down: bool, corrected: bool)
      modifies this
      ensures var r := CycleStep(old(State()).up, old(counter), up && !down, down && !up, !up && !down, corrected);
        State() == Phases(old(State()).down, r.0, r.1) && movements == old(movements) + (if r.2 then [Up] else [])
    {
      if upCycle {
        var reset := upPhase3 && !down && !up;
        if !reset {
          reset := counter > TIMEOUT;
          counter := counter + 1;
        }
        if reset {
          upCycle, upPhase2, upPhase3 := false, false, false;
          counter := 0;
        }
        if !(corrected && reset) {
          if upPhase2 && up && !down {
            upPhase3 := true;
          }
          if down && !up {
            upPhase2 := true;
          }
        }
      }
      if !upCycle && up && !down {
        upCycle := true;
        movements := movements + [Up];
      }
    }
  }

  /**
   * A down movement, eleven samples at rest and an up movement: the down
   * cycle times out on the up sample, which starts an up cycle, and the down
   * cycle is left inactive with phase 2 set.
   */
  method StalePhaseCounterexample() returns (d: AccelerationPhaseDetection)
    ensures d.Valid() && !d.Clean()
    ensures !d.downCycle && d.downPhase2 && d.upCycle
    ensures d.movements == [Down, Up]
  {
    d := new AccelerationPhaseDetection();
    d.OnMovement(false, true);
    var i := 0;
    while i < TIMEOUT + 1
      invariant 0 <= i <= TIMEOUT + 1
      invariant d.Valid() && d.downCycle && !d.upCycle && !d.downPhase2 && !d.downPhase3 && d.counter == i
      invariant d.movements == [Down]
    {
      d.OnMovement(false, false);
      i := i + 1;
    }
    d.OnMovement(true, false);
  }

  /** The same samples given to the corrected step leave no phase behind. */
  method StalePhaseCorrected() returns (d: AccelerationPhaseDetection)
    ensures d.Valid() && d.Clean()
    ensures !d.downCycle && !d.downPhase2 && d.upCycle
    ensures d.movements == [Down, Up]
  {
    d := new AccelerationPhaseDetection();
    d.OnMovementCorrected(false, true);
    var i := 0;
    while i < TIMEOUT + 1
      invariant 0 <= i <= TIMEOUT + 1
      invariant d.Valid() && d.Clean() && d.downCycle && !d.upCycle && !d.downPhase2 && !d.downPhase3 && d.counter == i
      invariant d.movements == [Down]
    {
      d.OnMovementCorrected(false, false);
      i := i + 1;
    }
    d.OnMovementCorrected(true, false);
  }
}
