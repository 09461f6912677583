/**
 * The servo board driven through the PWM chip (`servoBot`): an angle becomes
 * a duty value written into the servo's two registers.
 */
module ServoDriver {
  import opened Common
  import opened Encoding
  import opened Pca

  predicate ValidServo(servo: int) { 1 <= servo <= 8 }

  /** The register writes of one servo command: none for a servo number outside 1..8. */
  function ServoOps(servo: int, degrees: real): seq<BusOp>
  {
    if !ValidServo(servo) then []
    else
      var reg := ServoReg(servo);
      var pwm := ServoPwm(degrees);
      [MemWrite(ChipAddress, reg, LowByte(pwm)), MemWrite(ChipAddress, reg + 1, ServoHighByte(pwm))]
  }

  /**
   * A valid servo command leaves the servo's register pair reading the duty
   * value for the capped angle, 102..511, with a high byte of 0 or 1; no other
   * register changes. An invalid servo number changes nothing.
   */
  lemma ServoWriteEffect(regs: map<int, int>, servo: int, degrees: real)
    ensures var after := Apply(regs, ServoOps(servo, degrees));
      var reg := ServoReg(servo);
      (ValidServo(servo) ==>
        reg in after && reg + 1 in after &&
        after[reg] == LowByte(ServoPwm(degrees)) && after[reg + 1] <= 1 &&
        PairValue(after, reg) == ServoPwm(degrees) &&
        102 <= PairValue(after, reg) <= 511) &&
      (!ValidServo(servo) ==> after == regs) &&
      (forall r :: r !in ServoBlock(servo) ==> SameAt(after, regs, r))
  {
    var ops := ServoOps(servo, degrees);
    if ValidServo(servo) {
      ApplyTwo(regs, ops[0], ops[1]);
      assert ops == [ops[0], ops[1]];
      assert Written(ops) == ServoBlock(servo);
      ServoBytesRoundTrip(ServoPwm(degrees));
      forall r | r !in ServoBlock(servo)
        ensures SameAt(Apply(regs, ops), regs, r)
      {
        ApplyOutside(regs, ops, r);
      }
    }
  }

  /** Servos 1 and 8, the two ends of the range, use distinct, non-overlapping registers. */
  lemma EndServosApart()
    ensures ServoReg(1) == 0x08 && ServoReg(8) == 0x24
    ensures ServoBlock(1) !! ServoBlock(8)
  {
    ServoBlocksDisjoint(1, 8);
  }

  /** The servo board on the PWM chip. */
  class ServoBot {
    const chip: Pca9685

    /** Opens the bus and brings the chip up. */
    constructor ()
      ensures fresh(chip) && chip.Valid()
      ensures chip.log == InitOps()
      ensures chip.regs == Apply(map[], InitOps())
    {
      var c := new Pca9685();
      c.InitPCA();
      chip := c;
    }

    /**
     * Moves `servo` to `degrees`. A servo number outside 1..8 fails before
     * anything is written.
     */
    method ServoWrite(servo: int, degrees: real) returns (r: Outcome)
      requires chip.Valid()
      modifies chip
      ensures chip.Valid()
      ensures chip.log == old(chip.log) + ServoOps(servo, degrees)
      ensures chip.regs == Apply(old(chip.regs), ServoOps(servo, degrees))
      ensures r == if ValidServo(servo) then Pass else Fail(InvalidServoNumber)
      ensures r.Fail? ==> chip.log == old(chip.log) && chip.regs == old(chip.regs)
    {
      if servo < 1 || servo > 8 {
        return Fail(InvalidServoNumber);
      }
      var calcServo := ServoReg(servo);
      var pwm := ServoPwm(degrees);
      var lowByte := LowByte(pwm);
      var highByte := ServoHighByte(pwm);
      chip.WriteToMem(ChipAddress, calcServo, lowByte);
      chip.WriteToMem(ChipAddress, calcServo + 1, highByte);
      ApplyAppend(map[], old(chip.log), ServoOps(servo, degrees));
      r := Pass;
    }
  }
}
