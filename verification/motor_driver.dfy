/**
 * The two-motor chassis driven through the PWM chip (`wheelBot_2`). Each
 * motor owns a forward register pair and, four registers above it, a reverse
 * register pair; a command writes the duty value into one pair and zeroes
 * the other.
 */
module MotorDriver {
  import opened Common
  import opened Encoding
  import opened Pca

  /** The four register writes of one motor command, in the order they are issued. */
  function MotorOps(motor: int, direction: string, speed: real): seq<BusOp>
  {
    var reg := MotorReg(motor);
    var pwm := MotorPwm(speed);
    if direction == "f" then
      [ MemWrite(ChipAddress, reg, LowByte(pwm)), MemWrite(ChipAddress, reg + 1, MotorHighByte(pwm)),
        MemWrite(ChipAddress, reg + 4, 0), MemWrite(ChipAddress, reg + 5, 0) ]
    else if direction == "r" then
      [ MemWrite(ChipAddress, reg + 4, LowByte(pwm)), MemWrite(ChipAddress, reg + 5, MotorHighByte(pwm)),
        MemWrite(ChipAddress, reg, 0), MemWrite(ChipAddress, reg + 1, 0) ]
    else
      [ MemWrite(ChipAddress, reg + 4, 0), MemWrite(ChipAddress, reg + 5, 0),
        MemWrite(ChipAddress, reg, 0), MemWrite(ChipAddress, reg + 1, 0) ]
  }

  /** Turning a motor off is driving it forward at speed 0. */
  function MotorOffOps(motor: int): seq<BusOp>
  {
    MotorOps(motor, "f", 0.0)
  }

  /** The chassis uses motor outputs 4 and 3. */
  function ForwardOps(speed: real): seq<BusOp>
  {
    MotorOps(4, "f", speed) + MotorOps(3, "f", speed)
  }

  function BackwardOps(speed: real): seq<BusOp>
  {
    MotorOps(4, "r", speed) + MotorOps(3, "r", speed)
  }

  function StopOps(): seq<BusOp>
  {
    MotorOffOps(4) + MotorOffOps(3)
  }

  /** A turn first stops both motors, then drives them in opposite directions. */
  function LeftOps(speed: real): seq<BusOp>
  {
    StopOps() + (MotorOps(4, "f", speed) + MotorOps(3, "r", speed))
  }

  function RightOps(speed: real): seq<BusOp>
  {
    StopOps() + (MotorOps(4, "r", speed) + MotorOps(3, "f", speed))
  }

  /** Duty values a direction puts on the forward and the reverse pair. */
  function Duties(direction: string, speed: real): (int, int)
  {
    if direction == "f" then (MotorPwm(speed), 0)
    else if direction == "r" then (0, MotorPwm(speed))
    else (0, 0)
  }

  /** The motor's forward pair holds the bytes of `fwd` and its reverse pair those of `rev`. */
  predicate Drives(regs: map<int, int>, motor: int, fwd: int, rev: int)
  {
    var b := MotorReg(motor);
    MotorBlock(motor) <= regs.Keys &&
    regs[b] == LowByte(fwd) && regs[b + 1] == MotorHighByte(fwd) &&
    regs[b + 4] == LowByte(rev) && regs[b + 5] == MotorHighByte(rev)
  }

  /** What the chip reads back from the two pairs of a driven motor: the duty values themselves. */
  lemma DrivesReadsBack(regs: map<int, int>, motor: int, fwd: int, rev: int)
    requires Drives(regs, motor, fwd, rev)
    requires 0 <= fwd <= 4095 && 0 <= rev <= 4095
    ensures var b := MotorReg(motor);
      b in regs && b + 1 in regs && b + 4 in regs && b + 5 in regs &&
      PairValue(regs, b) == fwd && PairValue(regs, b + 4) == rev
  {
    MotorBytesRoundTrip(fwd);
    MotorBytesRoundTrip(rev);
  }

  /**
   * One motor command: "f" puts the duty value on the forward pair and zeroes
   * the reverse pair, "r" the mirror image, and any other direction zeroes
   * both; no register outside the motor's four changes.
   */
  lemma MotorOnEffect(regs: map<int, int>, motor: int, direction: string, speed: real)
    ensures var after := Apply(regs, MotorOps(motor, direction, speed));
      (direction == "f" ==> Drives(after, motor, MotorPwm(speed), 0)) &&
      (direction == "r" ==> Drives(after, motor, 0, MotorPwm(speed))) &&
      (direction != "f" && direction != "r" ==> Drives(after, motor, 0, 0)) &&
      (forall r :: r !in MotorBlock(motor) ==> SameAt(after, regs, r))
  {
    var ops := MotorOps(motor, direction, speed);
    ApplyFour(regs, ops[0], ops[1], ops[2], ops[3]);
    assert ops == [ops[0], ops[1], ops[2], ops[3]];
    assert Written(ops) == MotorBlock(motor);
    forall r | r !in MotorBlock(motor)
      ensures SameAt(Apply(regs, ops), regs, r)
    {
      ApplyOutside(regs, ops, r);
    }
  }

  /** The same, in terms of the duty values a direction selects. */
  lemma MotorOnDuties(regs: map<int, int>, motor: int, direction: string, speed: real)
    ensures var after := Apply(regs, MotorOps(motor, direction, speed));
      Drives(after, motor, Duties(direction, speed).0, Duties(direction, speed).1) &&
      (forall r :: r !in MotorBlock(motor) ==> SameAt(after, regs, r))
  {
    MotorOnEffect(regs, motor, direction, speed);
  }

  /** After any motor command at least one of the motor's two pairs is all zero. */
  lemma MotorPairsExclusive(regs: map<int, int>, motor: int, direction: string, speed: real)
    ensures var after := Apply(regs, MotorOps(motor, direction, speed));
      var b := MotorReg(motor);
      MotorBlock(motor) <= after.Keys &&
      ((after[b] == 0 && after[b + 1] == 0) || (after[b + 4] == 0 && after[b + 5] == 0))
  {
    MotorOnEffect(regs, motor, direction, speed);
  }

  /** Turning a motor off zeroes its four registers, whatever they held, and nothing else. */
  lemma MotorOffEffect(regs: map<int, int>, motor: int)
    ensures var after := Apply(regs, MotorOffOps(motor));
      Drives(after, motor, 0, 0) &&
      (forall r :: r !in MotorBlock(motor) ==> SameAt(after, regs, r))
  {
    MotorOnEffect(regs, motor, "f", 0.0);
  }

  /**
   * Forward then reverse at the same speed leaves the forward pair at zero and
   * the reverse pair reading the duty value, which is nonzero from speed 1 up.
   */
  lemma ForwardThenReverse(regs: map<int, int>, motor: int, speed: real)
    ensures var after := Apply(regs, MotorOps(motor, "f", speed) + MotorOps(motor, "r", speed));
      var b := MotorReg(motor);
      Drives(after, motor, 0, MotorPwm(speed)) &&
      b + 4 in after && b + 5 in after &&
      PairValue(after, b + 4) == MotorPwm(speed) &&
      (speed >= 1.0 ==> PairValue(after, b + 4) > 0)
  {
    ApplyAppend(regs, MotorOps(motor, "f", speed), MotorOps(motor, "r", speed));
    var mid := Apply(regs, MotorOps(motor, "f", speed));
    MotorOnEffect(mid, motor, "r", speed);
    DrivesReadsBack(Apply(mid, MotorOps(motor, "r", speed)), motor, 0, MotorPwm(speed));
    if speed >= 1.0 {
      MotorPwmMonotone(1.0, speed);
    }
  }

  /** Motor 4 then motor 3: each ends up with the duties of its own direction. */
  lemma BothMotors(regs: map<int, int>, d4: string, d3: string, speed: real)
    ensures var after := Apply(regs, MotorOps(4, d4, speed) + MotorOps(3, d3, speed));
      Drives(after, 4, Duties(d4, speed).0, Duties(d4, speed).1) &&
      Drives(after, 3, Duties(d3, speed).0, Duties(d3, speed).1) &&
      (forall r :: r !in MotorBlock(4) + MotorBlock(3) ==> SameAt(after, regs, r))
  {
    ApplyAppend(regs, MotorOps(4, d4, speed), MotorOps(3, d3, speed));
    var mid := Apply(regs, MotorOps(4, d4, speed));
    var after := Apply(mid, MotorOps(3, d3, speed));
    MotorOnDuties(regs, 4, d4, speed);
    MotorOnDuties(mid, 3, d3, speed);
    MotorBlocksDisjoint(4, 3);
    assert forall r :: r in MotorBlock(4) ==> SameAt(after, mid, r);
  }

  /** Forward: both motors run forward at the commanded speed. */
  lemma ForwardState(regs: map<int, int>, speed: real)
    ensures var after := Apply(regs, ForwardOps(speed));
      Drives(after, 4, MotorPwm(speed), 0) && Drives(after, 3, MotorPwm(speed), 0) &&
      (forall r :: r !in MotorBlock(4) + MotorBlock(3) ==> SameAt(after, regs, r))
  {
    BothMotors(regs, "f", "f", speed);
  }

  /** Backward: both motors run in reverse at the commanded speed. */
  lemma BackwardState(regs: map<int, int>, speed: real)
    ensures var after := Apply(regs, BackwardOps(speed));
      Drives(after, 4, 0, MotorPwm(speed)) && Drives(after, 3, 0, MotorPwm(speed)) &&
      (forall r :: r !in MotorBlock(4) + MotorBlock(3) ==> SameAt(after, regs, r))
  {
    BothMotors(regs, "r", "r", speed);
  }

  /** Stop: all eight motor registers read zero. */
  lemma StopState(regs: map<int, int>)
    ensures var after := Apply(regs, StopOps());
      Drives(after, 4, 0, 0) && Drives(after, 3, 0, 0) &&
      (forall r :: r !in MotorBlock(4) + MotorBlock(3) ==> SameAt(after, regs, r))
  {
    BothMotors(regs, "f", "f", 0.0);
  }

  /** A stop followed by a two-motor command ends in the state of the command alone. */
  lemma StopThenBoth(regs: map<int, int>, d4: string, d3: string, speed: real)
    ensures var after := Apply(regs, StopOps() + (MotorOps(4, d4, speed) + MotorOps(3, d3, speed)));
      Drives(after, 4, Duties(d4, speed).0, Duties(d4, speed).1) &&
      Drives(after, 3, Duties(d3, speed).0, Duties(d3, speed).1) &&
      (forall r :: r !in MotorBlock(4) + MotorBlock(3) ==> SameAt(after, regs, r))
  {
    var tail := MotorOps(4, d4, speed) + MotorOps(3, d3, speed);
    ApplyAppend(regs, StopOps(), tail);
    var mid := Apply(regs, StopOps());
    StopState(regs);
    BothMotors(mid, d4, d3, speed);
  }

  /** Left turn: motor 4 forward and motor 3 in reverse, after a stop. */
  lemma LeftState(regs: map<int, int>, speed: real)
    ensures var after := Apply(regs, LeftOps(speed));
      Drives(after, 4, MotorPwm(speed), 0) && Drives(after, 3, 0, MotorPwm(speed)) &&
      (forall r :: r !in MotorBlock(4) + MotorBlock(3) ==> SameAt(after, regs, r))
  {
    StopThenBoth(regs, "f", "r", speed);
  }

  /** Right turn: motor 4 in reverse and motor 3 forward, after a stop. */
  lemma RightState(regs: map<int, int>, speed: real)
    ensures var after := Apply(regs, RightOps(speed));
      Drives(after, 4, 0, MotorPwm(speed)) && Drives(after, 3, MotorPwm(speed), 0) &&
      (forall r :: r !in MotorBlock(4) + MotorBlock(3) ==> SameAt(after, regs, r))
  {
    StopThenBoth(regs, "r", "f", speed);
  }

  /** The motor chassis on the PWM chip. */
  class WheelBot2 {
    const chip: Pca9685

    /** Opens the bus and brings the chip up. */
    constructor ()
      ensures fresh(chip) && chip.Valid()
      ensures chip.log == InitOps()
      ensures chip.regs == Apply(map[], InitOps())
    {
      var c := new Pca9685();
      c.InitPCA();
      chip := c;
    }

    /**
     * Drives `motor` in `direction` ("f" or "r") at `speed` percent. An
     * unrecognised direction zeroes the motor's registers and then fails.
     */
    method MotorOn(motor: int, direction: string, speed: real) returns (r: Outcome)
      requires chip.Valid()
      modifies chip
      ensures chip.Valid()
      ensures chip.log == old(chip.log) + MotorOps(motor, direction, speed)
      ensures chip.regs == Apply(old(chip.regs), MotorOps(motor, direction, speed))
      ensures r == if direction == "f" || direction == "r" then Pass else Fail(InvalidDirection)
    {
      var motorReg := MotorReg(motor);
      var pwm := MotorPwm(speed);
      var lowByte := LowByte(pwm);
      var highByte := MotorHighByte(pwm);
      if direction == "f" {
        chip.WriteToMem(ChipAddress, motorReg, lowByte);
        chip.WriteToMem(ChipAddress, motorReg + 1, highByte);
        chip.WriteToMem(ChipAddress, motorReg + 4, 0);
        chip.WriteToMem(ChipAddress, motorReg + 5, 0);
        r := Pass;
      } else if direction == "r" {
        chip.WriteToMem(ChipAddress, motorReg + 4, lowByte);
        chip.WriteToMem(ChipAddress, motorReg + 5, highByte);
        chip.WriteToMem(ChipAddress, motorReg, 0);
        chip.WriteToMem(ChipAddress, motorReg + 1, 0);
        r := Pass;
      } else {
        chip.WriteToMem(ChipAddress, motorReg + 4, 0);
        chip.WriteToMem(ChipAddress, motorReg + 5, 0);
        chip.WriteToMem(ChipAddress, motorReg, 0);
        chip.WriteToMem(ChipAddress, motorReg + 1, 0);
        r := Fail(InvalidDirection);
      }
      ApplyAppend(map[], old(chip.log), MotorOps(motor, direction, speed));
    }

    /** Turns `motor` off; never fails. */
    method MotorOff(motor: int)
      requires chip.Valid()
      modifies chip
      ensures chip.Valid()
      ensures chip.log == old(chip.log) + MotorOffOps(motor)
      ensures chip.regs == Apply(old(chip.regs), MotorOffOps(motor))
    {
      var r := MotorOn(motor, "f", 0.0);
    }

    method Forward(speed: real)
      requires chip.Valid()
      modifies chip
      ensures chip.Valid()
      ensures chip.log == old(chip.log) + ForwardOps(speed)
      ensures chip.regs == Apply(old(chip.regs), ForwardOps(speed))
    {
      var r4 := MotorOn(4, "f", speed);
      var r3 := MotorOn(3, "f", speed);
      ApplyAppend(map[], old(chip.log), ForwardOps(speed));
    }

    method Backward(speed: real)
      requires chip.Valid()
      modifies chip
      ensures chip.Valid()
      ensures chip.log == old(chip.log) + BackwardOps(speed)
      ensures chip.regs == Apply(old(chip.regs), BackwardOps(speed))
    {
      var r4 := MotorOn(4, "r", speed);
      var r3 := MotorOn(3, "r", speed);
      ApplyAppend(map[], old(chip.log), BackwardOps(speed));
    }

    /** Stops both motors. */
    method Stop()
      requires chip.Valid()
      modifies chip
      ensures chip.Valid()
      ensures chip.log == old(chip.log) + StopOps()
      ensures chip.regs == Apply(old(chip.regs), StopOps())
    {
      MotorOff(4);
      MotorOff(3);
      ApplyAppend(map[], old(chip.log), StopOps());
    }

    /** Turns left; the pause of `delay` seconds is not modelled, and the motors keep running. */
    method Left(speed: real, delay: real)
      requires chip.Valid()
      modifies chip
      ensures chip.Valid()
      ensures chip.log == old(chip.log) + LeftOps(speed)
      ensures chip.regs == Apply(old(chip.regs), LeftOps(speed))
    {
      MotorOff(4);
      MotorOff(3);
      var r4 := MotorOn(4, "f", speed);
      var r3 := MotorOn(3, "r", speed);
      ApplyAppend(map[], old(chip.log), LeftOps(speed));
    }

    /** Turns right; the pause of `delay` seconds is not modelled, and the motors keep running. */
    method Right(speed: real, delay: real)
      requires chip.Valid()
      modifies chip
      ensures chip.Valid()
      ensures chip.log == old(chip.log) + RightOps(speed)
      ensures chip.regs == Apply(old(chip.regs), RightOps(speed))
    {
      MotorOff(4);
      MotorOff(3);
      var r4 := MotorOn(4, "r", speed);
      var r3 := MotorOn(3, "f", speed);
      ApplyAppend(map[], old(chip.log), RightOps(speed));
    }
  }
}
