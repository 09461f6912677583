/**
 * The arithmetic both PWM drivers share: clamping a command to its range,
 * scaling it to a duty value, splitting the duty value into the low and high
 * bytes the chip's registers hold, and the register address of each output.
 */
module Encoding {

  /** I2C address of the PWM chip. */
  const ChipAddress: int := 108
  /** Register of the first servo block and of the first motor block. */
  const ServoRegBase: int := 0x08
  const MotorRegBase: int := 0x28
  /** Distance between the blocks of two consecutive PWM outputs. */
  const RegOffset: int := 4

  /** Registers the bring-up sequence configures: MODE1, the four ALL_LED registers and PRE_SCALE. */
  const ControlRegs: set<int> := {0x00, 0xFA, 0xFB, 0xFC, 0xFD, 0xFE}

  predicate IsByte(v: int) { 0 <= v < 256 }

  function Abs(x: real): real { if x < 0.0 then -x else x }

  /** Caps `x` to `[lo, hi]`, as both drivers do with an if/elif pair. */
  function Clamp(x: real, lo: real, hi: real): (c: real)
    requires lo <= hi
    ensures lo <= c <= hi
    ensures lo <= x <= hi ==> c == x
  {
    if x < lo then lo else if x > hi then hi else x
  }

  /** The clamped value is the point of the range nearest to the input. */
  lemma ClampIsNearest(x: real, lo: real, hi: real, y: real)
    requires lo <= y <= hi
    ensures Abs(Clamp(x, lo, hi) - x) <= Abs(y - x)
  {
  }

  // ---------------------------------------------------------------------------
  // Duty values

  /**
   * Motor duty value: the speed in percent, capped to 0..100, times 40.95,
   * truncated to an integer. The product is never negative, so truncation is
   * the floor.
   */
  function MotorPwm(speed: real): (pwm: int)
    ensures 0 <= pwm <= 4095
  {
    (Clamp(speed, 0.0, 100.0) * 40.95).Floor
  }

  /**
   * Servo duty value: the angle in degrees, capped to 0..180, times 2.2755,
   * plus 102, truncated to an integer.
   */
  function ServoPwm(degrees: real): (pwm: int)
    ensures 102 <= pwm <= 511
  {
    (Clamp(degrees, 0.0, 180.0) * 2.2755 + 102.0).Floor
  }

  /** A faster motor command never yields a smaller duty value. */
  lemma MotorPwmMonotone(s1: real, s2: real)
    requires s1 <= s2
    ensures MotorPwm(s1) <= MotorPwm(s2)
  {
  }

  /** Speeds at or below 0 stop the motor; speeds at or above 100 give the full 12-bit duty. */
  lemma MotorPwmEnds(speed: real)
    ensures speed <= 0.0 ==> MotorPwm(speed) == 0
    ensures speed >= 100.0 ==> MotorPwm(speed) == 4095
  {
  }

  /** Every 12-bit duty value is reachable by some speed in 0..100. */
  lemma MotorPwmOnto(pwm: int)
    requires 0 <= pwm <= 4095
    ensures 0.0 <= pwm as real / 40.95 <= 100.0
    ensures MotorPwm(pwm as real / 40.95) == pwm
  {
  }

  /** A larger angle never yields a smaller duty value. */
  lemma ServoPwmMonotone(d1: real, d2: real)
    requires d1 <= d2
    ensures ServoPwm(d1) <= ServoPwm(d2)
  {
  }

  /** The end stops: 0 degrees (or less) gives 102, 180 degrees (or more) gives 511. */
  lemma ServoPwmEnds(degrees: real)
    ensures degrees <= 0.0 ==> ServoPwm(degrees) == 102
    ensures degrees >= 180.0 ==> ServoPwm(degrees) == 511
  {
  }

  // ---------------------------------------------------------------------------
  // Byte split. On a non-negative integer `v & 0xFF` is `v % 256` and `v >> 8`
  // is `v / 256`; with Python's floor semantics the same holds for negative
  // integers, and Dafny's `%` and `/` by a positive divisor agree with them.

  /** `pwm & 0xFF` */
  function LowByte(pwm: int): (b: int)
    ensures IsByte(b)
  {
    pwm % 256
  }

  /** `(pwm >> 8) & 0xFF`, the motors' high byte. */
  function MotorHighByte(pwm: int): (b: int)
    ensures IsByte(b)
  {
    (pwm / 256) % 256
  }

  /** `(pwm >> 8) & 0x01`, the servos' high byte, capped at one bit. */
  function ServoHighByte(pwm: int): (b: int)
    ensures 0 <= b <= 1
  {
    (pwm / 256) % 2
  }

  /** A motor duty value is recovered from its two bytes, and its high byte uses 4 bits. */
  lemma MotorBytesRoundTrip(pwm: int)
    requires 0 <= pwm <= 4095
    ensures MotorHighByte(pwm) <= 0x0F
    ensures MotorHighByte(pwm) * 256 + LowByte(pwm) == pwm
  {
  }

  /** On the servo range the one-bit cap on the high byte loses nothing. */
  lemma ServoBytesRoundTrip(pwm: int)
    requires 0 <= pwm <= 511
    ensures ServoHighByte(pwm) * 256 + LowByte(pwm) == pwm
  {
  }

  /** Full speed writes the bytes (0xFF, 0x0F). */
  lemma MotorFullSpeedBytes()
    ensures LowByte(MotorPwm(100.0)) == 0xFF && MotorHighByte(MotorPwm(100.0)) == 0x0F
  {
    MotorPwmEnds(100.0);
  }

  /** 0 degrees writes (0x66, 0x00) and 180 degrees writes (0xFF, 0x01). */
  lemma ServoEndBytes()
    ensures LowByte(ServoPwm(0.0)) == 0x66 && ServoHighByte(ServoPwm(0.0)) == 0x00
    ensures LowByte(ServoPwm(180.0)) == 0xFF && ServoHighByte(ServoPwm(180.0)) == 0x01
  {
    ServoPwmEnds(0.0);
    ServoPwmEnds(180.0);
  }

  // ---------------------------------------------------------------------------
  // Register addresses

  /** First register of a motor: each motor owns two consecutive 4-register blocks. */
  function MotorReg(motor: int): int
  {
    MotorRegBase + 2 * (motor - 1) * RegOffset
  }

  /** The four registers a motor command writes: the forward pair and the reverse pair. */
  function MotorBlock(motor: int): set<int>
  {
    var b := MotorReg(motor);
    {b, b + 1, b + 4, b + 5}
  }

  /** First register of a servo. */
  function ServoReg(servo: int): int
  {
    ServoRegBase + (servo - 1) * RegOffset
  }

  /** The two registers a servo command writes. */
  function ServoBlock(servo: int): set<int>
  {
    {ServoReg(servo), ServoReg(servo) + 1}
  }

  /** Distinct motors never share a register. */
  lemma MotorBlocksDisjoint(m1: int, m2: int)
    requires m1 != m2
    ensures MotorBlock(m1) !! MotorBlock(m2)
  {
  }

  /** Distinct servos never share a register. */
  lemma ServoBlocksDisjoint(s1: int, s2: int)
    requires s1 != s2
    ensures ServoBlock(s1) !! ServoBlock(s2)
  {
  }

  /**
   * Layout of the board's outputs: servos 1..8 live in 0x08..0x27, motors
   * 1..4 in 0x28..0x45, so servo and motor commands never touch each other's
   * registers or the registers the bring-up sequence configures.
   */
  lemma RegisterLayout(servo: int, motor: int)
    requires 1 <= servo <= 8 && 1 <= motor <= 4
    ensures forall r :: r in ServoBlock(servo) ==> 0x08 <= r <= 0x27
    ensures forall r :: r in MotorBlock(motor) ==> 0x28 <= r <= 0x45
    ensures ServoBlock(servo) !! MotorBlock(motor)
    ensures ServoBlock(servo) !! ControlRegs && MotorBlock(motor) !! ControlRegs
  {
  }
}
