# OpenEduBot chassis drivers: a Dafny model

OpenEduBot is a MicroPython library for small educational robots on a Raspberry Pi Pico. Its core is a set of three chassis drivers. This project models them and proves what they promise.

- **`wheelBot_2`**: two DC motors on a PCA-style PWM chip reached over I2C. A motor command clamps the speed to 0..100 percent and scales it to a 12-bit duty value. It splits that value into a low and a high byte and writes them into the motor's forward register pair or its reverse register pair. The other pair is zeroed. An unrecognised direction zeroes all four registers and then raises.
- **`servoBot`**: up to eight servos on the same chip. A servo command clamps the angle to 0..180 degrees and maps it to a duty value in 102..511. It writes the two bytes at the servo's register address. A servo number outside 1..8 raises before anything is written.
- **Chip bring-up (`initPCA`)**: a fixed, ordered sequence. A software reset, a prescale of 0x78 (50 Hz), the four ALL_LED registers cleared, then MODE1 set to 0x01.
- **`WheelBot`**: a GPIO chassis. Four direction pins IN1..IN4 drive a motor driver. The constructor checks the pins and builds optional ultrasound trigger/echo pin lists.

Structure:

- `common.dfy` (`Common`): the raised errors, as `Outcome` and `Result` values.
- `encoding.dfy` (`Encoding`): pure arithmetic. Clamping, the motor and servo duty values, the byte split (`& 0xFF`, `>> 8`) and the register addresses.
- `pca.dfy` (`Pca`): the chip as class `Pca9685`. It holds a register mirror (`map<int, int>`) and the ordered log of bus transactions. Its invariant is that the mirror is the log replayed (`Apply`). The bring-up sequence lives here once, because `wheelBot_2` and `servoBot` carry identical copies of it.
- `motor_driver.dfy` (`MotorDriver`): class `WheelBot2`. Each method appends a fixed list of writes to the log (`MotorOps`, `ForwardOps`, `LeftOps`, ...). The lemmas say what those writes leave in the registers.
- `servo_driver.dfy` (`ServoDriver`): class `ServoBot` and `ServoOps`.
- `gpio_chassis.dfy` (`GpioChassis`): class `WheelBot`. Pin levels are kept per GPIO number, so aliased pins behave as on the board. It also holds the constructor's validation (`Configure`, `New`) and its sensor-list loop (`BuildSensorLists`).

Speeds and angles are exact rationals (`real`). The constants 40.95 and 2.2755 are exact, and `int()` of the non-negative clamped product is its floor. The duty values follow the code's truncation. For example, 180 degrees gives 511, where rounding would give 512.

The constructor compares pins for duplicates only within and across the multi-sensor trigger/echo lists. It never compares the four direction pins with each other, and never compares a single trigger pin with its echo pin. The model keeps this behaviour. `ConfigureExamples` shows such configurations being accepted. `Motor1SharedPin` shows what `motor1` then does when IN1 == IN2.

## Model

| member | source | states |
|---|---|---|
| `Encoding.Clamp` | Library/EduBot.py:215-218 | the capped speed (or angle) lies in the range and equals the input when the input already lies in it |
| `Encoding.ClampIsNearest` | Library/EduBot.py:327-330 | the capped value is the point of the range nearest to the input |
| `Encoding.MotorPwm` | Library/EduBot.py:221 | the motor duty value always lies in 0..4095 |
| `Encoding.MotorPwmMonotone` | Library/EduBot.py:215-221 | a larger speed never gives a smaller duty value |
| `Encoding.MotorPwmEnds` | Library/EduBot.py:215-221 | speeds at or below 0 give 0; speeds at or above 100 give 4095 |
| `Encoding.MotorPwmOnto` | Library/EduBot.py:221 | every duty value 0..4095 is produced by some speed in 0..100 |
| `Encoding.ServoPwm` | Library/EduBot.py:335 | the servo duty value always lies in 102..511 |
| `Encoding.ServoPwmMonotone` | Library/EduBot.py:327-335 | a larger angle never gives a smaller duty value |
| `Encoding.ServoPwmEnds` | Library/EduBot.py:327-335 | angles at or below 0 give 102; angles at or above 180 give 511 |
| `Encoding.LowByte` | Library/EduBot.py:222 | the low byte is a byte |
| `Encoding.MotorHighByte` | Library/EduBot.py:223 | the motor high byte is a byte |
| `Encoding.ServoHighByte` | Library/EduBot.py:337 | the servo high byte is 0 or 1 |
| `Encoding.MotorBytesRoundTrip` | Library/EduBot.py:222-223 | for a duty value in 0..4095, high*256 + low gives the value back, and the high byte is at most 0x0F |
| `Encoding.ServoBytesRoundTrip` | Library/EduBot.py:336-337 | for a duty value in 0..511, masking the high byte to one bit loses nothing: high*256 + low gives the value back |
| `Encoding.MotorFullSpeedBytes` | Library/EduBot.py:221-223 | speed 100 writes the bytes (0xFF, 0x0F) |
| `Encoding.ServoEndBytes` | Library/EduBot.py:335-337 | 0 degrees writes (0x66, 0x00); 180 degrees writes (0xFF, 0x01) |
| `Encoding.MotorBlocksDisjoint` | Library/EduBot.py:220 | two different motor numbers never share any of their four registers |
| `Encoding.ServoBlocksDisjoint` | Library/EduBot.py:334 | two different servo numbers never share a register |
| `Encoding.RegisterLayout` | Library/EduBot.py:182-184 | servos 1..8 use 0x08..0x27 and motors 1..4 use 0x28..0x45; they never overlap each other or the bring-up registers |
| `Pca.InitState` | Library/EduBot.py:197-207 | after bring-up, PRE_SCALE reads 0x78, the ALL_LED registers 0 and MODE1 0x01; every other register is unchanged |
| `Pca.Pca9685.SwReset` | Library/EduBot.py:193-194 | appends the byte 0x06 to the general-call address 0 to the log; the register mirror is unchanged |
| `Pca.Pca9685.InitPCA` | Library/EduBot.py:197-207 | appends exactly the bring-up sequence, in order, to the log; the mirror becomes that sequence applied to the old mirror |
| `MotorDriver.MotorOnEffect` | Library/EduBot.py:225-240 | "f" leaves the duty bytes on the forward pair and zeros on the reverse pair; "r" is the mirror image; any other direction zeroes all four; no other register changes |
| `MotorDriver.MotorOnDuties` | Library/EduBot.py:225-240 | the same effect stated through the duty pair a direction selects: (duty, 0) for "f", (0, duty) for "r", (0, 0) otherwise |
| `MotorDriver.DrivesReadsBack` | Library/EduBot.py:222-229 | when a motor's pairs hold the bytes of two duty values in 0..4095, each pair reads back its duty value |
| `MotorDriver.MotorPairsExclusive` | Library/EduBot.py:225-240 | after any motor command, at least one of the motor's two register pairs is all zero |
| `MotorDriver.MotorOffEffect` | Library/EduBot.py:242-243 | turning a motor off zeroes its four registers, whatever they held, and changes nothing else |
| `MotorDriver.ForwardThenReverse` | Library/EduBot.py:225-234 | forward then reverse at one speed leaves the forward pair at zero and the reverse pair reading the duty value; this value is nonzero from speed 1 up |
| `MotorDriver.ForwardState` | Library/EduBot.py:244-250 | motors 4 and 3 both hold the duty value on their forward pairs and zero on their reverse pairs; no other register changes |
| `MotorDriver.BackwardState` | Library/EduBot.py:251-256 | motors 4 and 3 both hold the duty value on their reverse pairs and zero on their forward pairs |
| `MotorDriver.StopState` | Library/EduBot.py:282-287 | all eight registers of motors 4 and 3 read zero |
| `MotorDriver.StopThenBoth` | Library/EduBot.py:257-280 | a stop followed by commands to motors 4 and 3 ends in the state of those commands alone; only the eight motor registers change |
| `MotorDriver.LeftState` | Library/EduBot.py:257-268 | after the stop, motor 4 is driven forward and motor 3 in reverse at the given speed |
| `MotorDriver.RightState` | Library/EduBot.py:269-280 | after the stop, motor 4 is driven in reverse and motor 3 forward at the given speed |
| `MotorDriver.WheelBot2.constructor` | Library/EduBot.py:185-190 | a fresh chip whose log is exactly the bring-up sequence |
| `MotorDriver.WheelBot2.MotorOn` | Library/EduBot.py:213-240 | issues the motor's four writes in the source's order; returns InvalidDirection exactly when the direction is neither "f" nor "r", after the zero writes |
| `MotorDriver.WheelBot2.MotorOff` | Library/EduBot.py:242-243 | issues the writes of a forward command at speed 0; never fails |
| `MotorDriver.WheelBot2.Forward` | Library/EduBot.py:244-250 | motor 4 forward, then motor 3 forward |
| `MotorDriver.WheelBot2.Backward` | Library/EduBot.py:251-256 | motor 4 in reverse, then motor 3 in reverse |
| `MotorDriver.WheelBot2.Stop` | Library/EduBot.py:282-287 | motor 4 off, then motor 3 off |
| `MotorDriver.WheelBot2.Left` | Library/EduBot.py:257-268 | both motors off, then motor 4 forward and motor 3 in reverse |
| `MotorDriver.WheelBot2.Right` | Library/EduBot.py:269-280 | both motors off, then motor 4 in reverse and motor 3 forward |
| `ServoDriver.ServoWriteEffect` | Library/EduBot.py:325-339 | for servo 1..8, the pair at 0x08 + 4*(servo-1) reads the duty value (102..511) with a high byte of 0 or 1, and nothing else changes; any other servo number changes nothing |
| `ServoDriver.EndServosApart` | Library/EduBot.py:334 | servos 1 and 8 start at 0x08 and 0x24, and their register pairs do not overlap |
| `ServoDriver.ServoBot.constructor` | Library/EduBot.py:290-295 | a fresh chip whose log is exactly the bring-up sequence |
| `ServoDriver.ServoBot.ServoWrite` | Library/EduBot.py:325-339 | returns InvalidServoNumber exactly for servo numbers outside 1..8, and then leaves log and registers unchanged; otherwise writes low then high byte |
| `GpioChassis.Motor1Effect` | Library/EduBot.py:126-136 | with IN1 != IN2, exactly one of them ends high: IN1 when driven forward, IN2 when driven backward; no other pin changes |
| `GpioChassis.Motor2Effect` | Library/EduBot.py:137-147 | with IN3 != IN4, exactly one of them ends high: IN3 when driven forward, IN4 when driven backward |
| `GpioChassis.Motor1SharedPin` | Library/EduBot.py:126-136 | when IN1 and IN2 are the same pin, that pin ends at the second level written, so the motor never sees opposite levels |
| `GpioChassis.StopEffect` | Library/EduBot.py:148-155 | all four direction pins end low, even when pin numbers repeat; no other pin changes |
| `GpioChassis.ForwardLevels` | Library/EduBot.py:94-99 | with distinct pins, IN1 and IN3 end high and IN2 and IN4 low |
| `GpioChassis.BackwardLevels` | Library/EduBot.py:100-105 | with distinct pins, IN2 and IN4 end high and IN1 and IN3 low |
| `GpioChassis.LeftLevels` | Library/EduBot.py:106-115 | with distinct pins, after the stop, motor 1 runs backward and motor 2 forward (IN1..IN4 = 0,1,1,0) |
| `GpioChassis.RightLevels` | Library/EduBot.py:116-125 | with distinct pins, after the stop, motor 1 runs forward and motor 2 backward (IN1..IN4 = 1,0,0,1) |
| `GpioChassis.CountOneIffUnique` | Library/EduBot.py:61 | an element's list count is 1 exactly when no other position holds it |
| `GpioChassis.AllCheckedIffDistinct` | Library/EduBot.py:59-62 | the per-sensor checks pass for every sensor exactly when no pin repeats within or across the two lists |
| `GpioChassis.BuildSensorLists` | Library/EduBot.py:55-62 | lists of different lengths fail; otherwise the result is the two lists, in order, when no pin repeats, and DuplicatePin when one does |
| `GpioChassis.ConfigureRejectsBadMotorPin` | Library/EduBot.py:54 | any direction pin outside 0..27 is refused with InvalidPin, whatever the sensor arguments |
| `GpioChassis.ConfigureLists` | Library/EduBot.py:55-62 | with valid direction pins, two sensor lists are accepted exactly when their lengths match and no pin repeats |
| `GpioChassis.ConfigureExamples` | Library/EduBot.py:43-70 | the default pins are accepted; repeated direction pins, a trigger pin equal to its echo pin and out-of-range list pins are accepted; a repeated list pin or a list paired with a single pin is refused |
| `GpioChassis.WheelBot.New` | Library/EduBot.py:43-70 | fails with the configuration's error, or returns a fresh chassis holding the given direction pins and the configured sensors |
| `GpioChassis.WheelBot.Motor1` | Library/EduBot.py:126-136 | writes IN1 then IN2 with the levels of the chosen direction |
| `GpioChassis.WheelBot.Motor2` | Library/EduBot.py:137-147 | writes IN3 then IN4 with the levels of the chosen direction |
| `GpioChassis.WheelBot.Stop` | Library/EduBot.py:148-155 | writes 0 to IN1, IN2, IN3, IN4 in that order |
| `GpioChassis.WheelBot.Forward` | Library/EduBot.py:94-99 | motor 1 then motor 2, both forward |
| `GpioChassis.WheelBot.Backward` | Library/EduBot.py:100-105 | motor 1 then motor 2, both backward |
| `GpioChassis.WheelBot.Left` | Library/EduBot.py:106-115 | stop, then motor 1 backward and motor 2 forward |
| `GpioChassis.WheelBot.Right` | Library/EduBot.py:116-125 | stop, then motor 1 forward and motor 2 backward |

## Left out

- `WheelBot.distance` (Library/EduBot.py:72-93) is not modelled. It busy-waits on echo pins with no bound, reads a microsecond clock, and scales by the float 0.0343.
- Sleeps are not modelled. `utime.sleep` in `left`/`right` is a no-op here: the `delay` argument is accepted and ignored, and the motors keep running afterwards, as in the source.
- Hardware construction is not modelled: `machine.Pin` and `machine.I2C` (the `sda`, `scl` and 100 kHz bus settings), and pin modes. The bus is the register mirror plus the log. A failed transaction (no acknowledge) and any error `machine.Pin` raises for a bad pin number are not modelled.
- Register addresses are unbounded integers. How the bus driver encodes an address outside 0..255 is not modelled. Such addresses only arise for motor numbers far outside 1..4 or for invalid servo numbers, which never reach the bus.
- The software reset's effect on the chip's own registers (its power-on defaults) is not modelled. The reset is logged, and the mirror keeps only what the library itself wrote. The mirror of a new chip starts empty.
- `setPrescaleReg` (Library/EduBot.py:209-210, 321-322) is left out. It refers to an undefined global `i2c` and fails whenever it is called.
- `lineFollower` is left out because it ignores its own arguments. `ServoBot` is left out because it is empty. Also left out: the ignored `I2CAddress`, `chanA` and `chanB` parameters, and the import-time prints.
- Floating point is modelled as exact arithmetic. Speeds and angles are exact rationals, so IEEE rounding of `speed * 40.95` is not captured. Nor are NaN and infinite inputs (`int()` raises on them) or non-numeric arguments.
- Default argument values (speed 30 and delay 1 for turns, the default pins) are not modelled. Every model method takes all its arguments explicitly.
- A direction that is not a string is not modelled. The direction is a string here; any other value fails the comparisons with "f" and "r" in the same way and takes the error branch.
