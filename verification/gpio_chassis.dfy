/**
 * The two-motor chassis driven directly from GPIO pins through a motor
 * driver (`WheelBot`): four direction pins IN1..IN4 (IN1/IN2 for motor 1,
 * IN3/IN4 for motor 2) and optional ultrasound trigger/echo pins.
 *
 * Pin levels are kept per GPIO number, so two pin objects created on the same
 * number share one level, as they do on the board.
 */
module GpioChassis {
  import opened Common

  /** The GPIO numbers the constructor accepts: 0 to 27. */
  predicate ValidGpio(pin: int) { 0 <= pin < 28 }

  type Level = x: int | 0 <= x <= 1

  /** One `value(level)` call on the output pin numbered `pin`. */
  datatype PinWrite = PinWrite(pin: int, level: Level)

  /** Pin levels after the writes `writes`, issued in order, starting from `levels`. */
  function Drive(levels: map<int, Level>, writes: seq<PinWrite>): map<int, Level>
    decreases |writes|
  {
    if writes == [] then levels
    else
      var w := writes[|writes| - 1];
      Drive(levels, writes[..|writes| - 1])[w.pin := w.level]
  }

  /** Issuing `a` then `b` is issuing `a + b`. */
  lemma {:induction false} DriveAppend(levels: map<int, Level>, a: seq<PinWrite>, b: seq<PinWrite>)
    ensures Drive(levels, a + b) == Drive(Drive(levels, a), b)
    decreases |b|
  {
    if b == [] {
      assert a + b == a;
    } else {
      var front := b[..|b| - 1];
      assert (a + b)[..|a + b| - 1] == a + front;
      DriveAppend(levels, a, front);
    }
  }

  /** Two writes in a row. */
  lemma DriveTwo(levels: map<int, Level>, w1: PinWrite, w2: PinWrite)
    ensures Drive(levels, [w1, w2]) == levels[w1.pin := w1.level][w2.pin := w2.level]
  {
    assert Drive(levels, [w1]) == levels[w1.pin := w1.level] by {
      assert [w1][..0] == [];
    }
    assert [w1, w2][..1] == [w1];
  }

  /** The GPIO numbers of the four direction pins. */
  datatype MotorPins = MotorPins(in1: int, in2: int, in3: int, in4: int)

  predicate DistinctPins(p: MotorPins)
  {
    p.in1 != p.in2 && p.in1 != p.in3 && p.in1 != p.in4 &&
    p.in2 != p.in3 && p.in2 != p.in4 && p.in3 != p.in4
  }

  /** Motor 1 forward (`fir`) sets IN1 high and IN2 low, backward the reverse. */
  function Motor1Writes(p: MotorPins, fir: bool): seq<PinWrite>
  {
    if fir then [PinWrite(p.in1, 1), PinWrite(p.in2, 0)] else [PinWrite(p.in1, 0), PinWrite(p.in2, 1)]
  }

  function Motor2Writes(p: MotorPins, fir: bool): seq<PinWrite>
  {
    if fir then [PinWrite(p.in3, 1), PinWrite(p.in4, 0)] else [PinWrite(p.in3, 0), PinWrite(p.in4, 1)]
  }

  function StopWrites(p: MotorPins): seq<PinWrite>
  {
    [PinWrite(p.in1, 0), PinWrite(p.in2, 0), PinWrite(p.in3, 0), PinWrite(p.in4, 0)]
  }

  function ForwardWrites(p: MotorPins): seq<PinWrite>
  {
    Motor1Writes(p, true) + Motor2Writes(p, true)
  }

  function BackwardWrites(p: MotorPins): seq<PinWrite>
  {
    Motor1Writes(p, false) + Motor2Writes(p, false)
  }

  /** A turn stops first, then runs motor 1 and motor 2 in opposite directions. */
  function LeftWrites(p: MotorPins): seq<PinWrite>
  {
    StopWrites(p) + (Motor1Writes(p, false) + Motor2Writes(p, true))
  }

  function RightWrites(p: MotorPins): seq<PinWrite>
  {
    StopWrites(p) + (Motor1Writes(p, true) + Motor2Writes(p, false))
  }

  /** Levels of the four direction pins, in the order IN1..IN4. */
  predicate PinsAre(levels: map<int, Level>, p: MotorPins, l1: Level, l2: Level, l3: Level, l4: Level)
  {
    p.in1 in levels && p.in2 in levels && p.in3 in levels && p.in4 in levels &&
    levels[p.in1] == l1 && levels[p.in2] == l2 && levels[p.in3] == l3 && levels[p.in4] == l4
  }

  /**
   * With distinct pins, motor 1 ends with exactly one of IN1, IN2 high: IN1
   * when driven forward, IN2 when driven backward. No other pin changes.
   */
  lemma Motor1Effect(levels: map<int, Level>, p: MotorPins, fir: bool)
    requires p.in1 != p.in2
    ensures var after := Drive(levels, Motor1Writes(p, fir));
      p.in1 in after && p.in2 in after &&
      after[p.in1] as int + after[p.in2] as int == 1 &&
      after[p.in1] == (if fir then 1 else 0) &&
      (forall q :: q != p.in1 && q != p.in2 ==> SameAt(after, levels, q))
  {
    var ws := Motor1Writes(p, fir);
    DriveTwo(levels, ws[0], ws[1]);
  }

  /** With distinct pins, motor 2 ends with exactly one of IN3, IN4 high. */
  lemma Motor2Effect(levels: map<int, Level>, p: MotorPins, fir: bool)
    requires p.in3 != p.in4
    ensures var after := Drive(levels, Motor2Writes(p, fir));
      p.in3 in after && p.in4 in after &&
      after[p.in3] as int + after[p.in4] as int == 1 &&
      after[p.in3] == (if fir then 1 else 0) &&
      (forall q :: q != p.in3 && q != p.in4 ==> SameAt(after, levels, q))
  {
    var ws := Motor2Writes(p, fir);
    DriveTwo(levels, ws[0], ws[1]);
  }

  /**
   * The constructor accepts IN1 == IN2; then the pin ends at the second
   * level written, so motor 1 forward leaves it low and the motor never
   * sees opposite levels.
   */
  lemma Motor1SharedPin(levels: map<int, Level>, p: MotorPins, fir: bool)
    requires p.in1 == p.in2
    ensures var after := Drive(levels, Motor1Writes(p, fir));
      p.in1 in after && after[p.in1] == (if fir then 0 else 1)
  {
    var ws := Motor1Writes(p, fir);
    DriveTwo(levels, ws[0], ws[1]);
  }

  /** Stop drives all four direction pins low, even when pin numbers repeat; no other pin changes. */
  lemma StopEffect(levels: map<int, Level>, p: MotorPins)
    ensures var after := Drive(levels, StopWrites(p));
      PinsAre(after, p, 0, 0, 0, 0) &&
      (forall q :: q !in {p.in1, p.in2, p.in3, p.in4} ==> SameAt(after, levels, q))
  {
    var ws := StopWrites(p);
    DriveTwo(levels, ws[0], ws[1]);
    DriveTwo(Drive(levels, ws[..2]), ws[2], ws[3]);
    assert ws == ws[..2] + [ws[2], ws[3]];
    DriveAppend(levels, ws[..2], [ws[2], ws[3]]);
  }

  /** Motor 1 then motor 2, on distinct pins: the four levels the two directions select. */
  lemma BothMotors(levels: map<int, Level>, p: MotorPins, fir1: bool, fir2: bool)
    requires DistinctPins(p)
    ensures var after := Drive(levels, Motor1Writes(p, fir1) + Motor2Writes(p, fir2));
      PinsAre(after, p, if fir1 then 1 else 0, if fir1 then 0 else 1, if fir2 then 1 else 0, if fir2 then 0 else 1) &&
      (forall q :: q !in {p.in1, p.in2, p.in3, p.in4} ==> SameAt(after, levels, q))
  {
    DriveAppend(levels, Motor1Writes(p, fir1), Motor2Writes(p, fir2));
    var mid := Drive(levels, Motor1Writes(p, fir1));
    var after := Drive(mid, Motor2Writes(p, fir2));
    Motor1Effect(levels, p, fir1);
    Motor2Effect(mid, p, fir2);
    assert SameAt(after, mid, p.in1) && SameAt(after, mid, p.in2);
    forall q | q !in {p.in1, p.in2, p.in3, p.in4}
      ensures SameAt(after, levels, q)
    {
      assert SameAt(after, mid, q) && SameAt(mid, levels, q);
    }
  }

  /** Forward: IN1 and IN3 high, IN2 and IN4 low. */
  lemma ForwardLevels(levels: map<int, Level>, p: MotorPins)
    requires DistinctPins(p)
    ensures PinsAre(Drive(levels, ForwardWrites(p)), p, 1, 0, 1, 0)
  {
    BothMotors(levels, p, true, true);
  }

  /** Backward: IN2 and IN4 high, IN1 and IN3 low. */
  lemma BackwardLevels(levels: map<int, Level>, p: MotorPins)
    requires DistinctPins(p)
    ensures PinsAre(Drive(levels, BackwardWrites(p)), p, 0, 1, 0, 1)
  {
    BothMotors(levels, p, false, false);
  }

  /** Left: after the stop, motor 1 backward and motor 2 forward. */
  lemma LeftLevels(levels: map<int, Level>, p: MotorPins)
    requires DistinctPins(p)
    ensures PinsAre(Drive(levels, LeftWrites(p)), p, 0, 1, 1, 0)
  {
    DriveAppend(levels, StopWrites(p), Motor1Writes(p, false) + Motor2Writes(p, true));
    BothMotors(Drive(levels, StopWrites(p)), p, false, true);
  }

  /** Right: after the stop, motor 1 forward and motor 2 backward. */
  lemma RightLevels(levels: map<int, Level>, p: MotorPins)
    requires DistinctPins(p)
    ensures PinsAre(Drive(levels, RightWrites(p)), p, 1, 0, 0, 1)
  {
    DriveAppend(levels, StopWrites(p), Motor1Writes(p, true) + Motor2Writes(p, false));
    BothMotors(Drive(levels, StopWrites(p)), p, true, false);
  }

  // ---------------------------------------------------------------------------
  // Construction

  /** A pin argument: absent (`None`), one GPIO number, or a list of them. */
  datatype PinArg = NoPin | Pin(number: int) | PinList(numbers: seq<int>)

  /** The ultrasound sensors a chassis was built with: none, or parallel trigger and echo lists. */
  datatype Sensors = NoSensors | Sensors(trigger: seq<int>, echo: seq<int>)

  /** Python's `list.count`. */
  function Count(s: seq<int>, x: int): nat
  {
    multiset(s)[x]
  }

  predicate NoRepeats(s: seq<int>)
  {
    forall i, j :: 0 <= i < j < |s| ==> s[i] != s[j]
  }

  /** No pin appears twice within either list or in both. */
  predicate SensorPinsDistinct(trig: seq<int>, echo: seq<int>)
  {
    NoRepeats(trig) && NoRepeats(echo) &&
    forall i, j :: 0 <= i < |trig| && 0 <= j < |echo| ==> trig[i] != echo[j]
  }

  /** The check the constructor makes for sensor `k`. */
  predicate SensorChecked(trig: seq<int>, echo: seq<int>, k: int)
    requires 0 <= k < |trig| && k < |echo|
  {
    Count(trig, trig[k]) == 1 && Count(echo, echo[k]) == 1 && trig[k] !in echo && echo[k] !in trig
  }

  /** An element occurs once exactly when no other position holds it. */
  lemma CountOneIffUnique(s: seq<int>, i: int)
    requires 0 <= i < |s|
    ensures Count(s, s[i]) == 1 <==> forall j :: 0 <= j < |s| && j != i ==> s[j] != s[i]
  {
    var x := s[i];
    assert s == s[..i] + [x] + s[i + 1..];
    assert multiset(s) == multiset(s[..i]) + multiset{x} + multiset(s[i + 1..]);
    if Count(s, x) == 1 {
      assert x !in multiset(s[..i]) && x !in multiset(s[i + 1..]);
      forall j | 0 <= j < |s| && j != i
        ensures s[j] != x
      {
        if j < i {
          assert s[j] == s[..i][j];
        } else {
          assert s[j] == s[i + 1..][j - i - 1];
        }
      }
    } else {
      if x in multiset(s[..i]) {
        var j :| 0 <= j < i && s[..i][j] == x;
        assert s[j] == x;
      } else {
        assert x in multiset(s[i + 1..]);
        var j :| 0 <= j < |s| - i - 1 && s[i + 1..][j] == x;
        assert s[i + 1 + j] == x;
      }
    }
  }

  /** Each sensor passes its check exactly when its pins occur nowhere else. */
  lemma SensorCheckedIff(trig: seq<int>, echo: seq<int>, k: int)
    requires |trig| == |echo| && 0 <= k < |trig|
    ensures SensorChecked(trig, echo, k) <==>
      (forall j :: 0 <= j < |trig| && j != k ==> trig[j] != trig[k]) &&
      (forall j :: 0 <= j < |echo| && j != k ==> echo[j] != echo[k]) &&
      (forall j :: 0 <= j < |echo| ==> echo[j] != trig[k]) &&
      (forall j :: 0 <= j < |trig| ==> trig[j] != echo[k])
  {
    CountOneIffUnique(trig, k);
    CountOneIffUnique(echo, k);
  }

  /** Checking every sensor in turn is exactly checking that all sensor pins are distinct. */
  lemma AllCheckedIffDistinct(trig: seq<int>, echo: seq<int>)
    requires |trig| == |echo|
    ensures (forall k :: 0 <= k < |trig| ==> SensorChecked(trig, echo, k)) <==> SensorPinsDistinct(trig, echo)
  {
    if forall k :: 0 <= k < |trig| ==> SensorChecked(trig, echo, k) {
      forall i, j | 0 <= i < j < |trig|
        ensures trig[i] != trig[j]
      {
        SensorCheckedIff(trig, echo, i);
      }
      forall i, j | 0 <= i < j < |echo|
        ensures echo[i] != echo[j]
      {
        SensorCheckedIff(trig, echo, i);
      }
      forall i, j | 0 <= i < |trig| && 0 <= j < |echo|
        ensures trig[i] != echo[j]
      {
        SensorCheckedIff(trig, echo, i);
      }
    }
    if SensorPinsDistinct(trig, echo) {
      forall k | 0 <= k < |trig|
        ensures SensorChecked(trig, echo, k)
      {
        SensorCheckedIff(trig, echo, k);
      }
    }
  }

  /**
   * The constructor's multi-sensor loop: lists of different lengths fail,
   * a repeated pin fails, and otherwise the trigger and echo lists are built
   * in order. The pins of this branch are not range-checked.
   */
  method BuildSensorLists(trigPins: seq<int>, echoPins: seq<int>) returns (r: Result<Sensors>)
    ensures |trigPins| != |echoPins| ==> r == Failure(SensorListMismatch)
    ensures |trigPins| == |echoPins| && SensorPinsDistinct(trigPins, echoPins) ==>
      r == Success(Sensors(trigPins, echoPins))
    ensures |trigPins| == |echoPins| && !SensorPinsDistinct(trigPins, echoPins) ==>
      r == Failure(DuplicatePin)
  {
    if |trigPins| != |echoPins| {
      return Failure(SensorListMismatch);
    }
    AllCheckedIffDistinct(trigPins, echoPins);
    var trigger: seq<int> := [];
    var echo: seq<int> := [];
    for i := 0 to |trigPins|
      invariant trigger == trigPins[..i] && echo == echoPins[..i]
      invariant forall k :: 0 <= k < i ==> SensorChecked(trigPins, echoPins, k)
    {
      trigger := trigger + [trigPins[i]];
      if !(Count(trigPins, trigPins[i]) == 1 && Count(echoPins, echoPins[i]) == 1 &&
           trigPins[i] !in echoPins && echoPins[i] !in trigPins) {
        assert !SensorChecked(trigPins, echoPins, i);
        return Failure(DuplicatePin);
      }
      echo := echo + [echoPins[i]];
    }
    assert trigger == trigPins && echo == echoPins;
    return Success(Sensors(trigger, echo));
  }

  /**
   * What construction yields: the direction pins must be GPIO numbers; two
   * pin lists go through the multi-sensor checks; two single pins must be
   * GPIO numbers; otherwise the chassis has no sensor.
   */
  function Configure(trigPin: PinArg, echoPin: PinArg, p: MotorPins): Result<Sensors>
  {
    if !(ValidGpio(p.in1) && ValidGpio(p.in2) && ValidGpio(p.in3) && ValidGpio(p.in4)) then
      Failure(InvalidPin)
    else if trigPin.PinList? && echoPin.PinList? then
      if |trigPin.numbers| != |echoPin.numbers| then Failure(SensorListMismatch)
      else if !SensorPinsDistinct(trigPin.numbers, echoPin.numbers) then Failure(DuplicatePin)
      else Success(Sensors(trigPin.numbers, echoPin.numbers))
    else if trigPin != NoPin && echoPin != NoPin then
      if trigPin.Pin? && echoPin.Pin? && ValidGpio(trigPin.number) && ValidGpio(echoPin.number) then
        Success(Sensors([trigPin.number], [echoPin.number]))
      else
        Failure(InvalidPin)
    else
      Success(NoSensors)
  }

  /** Any direction pin outside 0..27 is refused, whatever the sensor arguments. */
  lemma ConfigureRejectsBadMotorPin(trigPin: PinArg, echoPin: PinArg, p: MotorPins)
    requires !ValidGpio(p.in1) || !ValidGpio(p.in2) || !ValidGpio(p.in3) || !ValidGpio(p.in4)
    ensures Configure(trigPin, echoPin, p) == Failure(InvalidPin)
  {
  }

  /**
   * With valid direction pins, two sensor lists are accepted exactly when
   * they have the same length and no pin repeats.
   */
  lemma ConfigureLists(trigPins: seq<int>, echoPins: seq<int>, p: MotorPins)
    requires ValidGpio(p.in1) && ValidGpio(p.in2) && ValidGpio(p.in3) && ValidGpio(p.in4)
    ensures Configure(PinList(trigPins), PinList(echoPins), p).Success? <==>
      |trigPins| == |echoPins| && SensorPinsDistinct(trigPins, echoPins)
    ensures Configure(PinList(trigPins), PinList(echoPins), p).Success? ==>
      Configure(PinList(trigPins), PinList(echoPins), p).value == Sensors(trigPins, echoPins)
  {
  }

  /**
   * The default pins (trigger 26, echo 22, IN1..IN4 = 18..21) are accepted. So
   * are repeated direction pins and a single trigger pin equal to its echo
   * pin, which are never compared, and sensor lists with numbers outside
   * 0..27, which are never range-checked.
   */
  lemma ConfigureExamples()
    ensures Configure(Pin(26), Pin(22), MotorPins(18, 19, 20, 21)) == Success(Sensors([26], [22]))
    ensures Configure(NoPin, NoPin, MotorPins(18, 18, 20, 21)) == Success(NoSensors)
    ensures Configure(Pin(22), Pin(22), MotorPins(18, 19, 20, 21)) == Success(Sensors([22], [22]))
    ensures Configure(PinList([40]), PinList([41]), MotorPins(18, 19, 20, 21)) == Success(Sensors([40], [41]))
    ensures Configure(PinList([5, 5]), PinList([6, 7]), MotorPins(18, 19, 20, 21)) == Failure(DuplicatePin)
    ensures Configure(PinList([5]), Pin(6), MotorPins(18, 19, 20, 21)) == Failure(InvalidPin)
  {
    assert !NoRepeats([5, 5]) by {
      assert [5, 5][0] == [5, 5][1];
    }
  }

  /** The GPIO chassis: its pins, and the level of every output pin it has driven. */
  class WheelBot {
    const pins: MotorPins
    const sensors: Sensors
    var levels: map<int, Level>
    var history: seq<PinWrite>

    /** Direction pins are GPIO numbers, and the levels are the pin writes replayed. */
    ghost predicate Valid()
      reads this
    {
      ValidGpio(pins.in1) && ValidGpio(pins.in2) && ValidGpio(pins.in3) && ValidGpio(pins.in4) &&
      levels == Drive(map[], history)
    }

    /** Stores an already checked configuration; the direction pins' initial levels are unknown. */
    constructor (sensors: Sensors, pins: MotorPins)
      requires ValidGpio(pins.in1) && ValidGpio(pins.in2) && ValidGpio(pins.in3) && ValidGpio(pins.in4)
      ensures Valid()
      ensures this.sensors == sensors && this.pins == pins && history == []
    {
      this.sensors := sensors;
      this.pins := pins;
      levels := map[];
      history := [];
    }

    /** Builds a chassis, failing as the configuration checks dictate. */
    static method New(trigPin: PinArg, echoPin: PinArg, in1: int, in2: int, in3: int, in4: int)
      returns (r: Result<WheelBot>)
      ensures Configure(trigPin, echoPin, MotorPins(in1, in2, in3, in4)).Failure? ==>
        r == Failure(Configure(trigPin, echoPin, MotorPins(in1, in2, in3, in4)).error)
      ensures Configure(trigPin, echoPin, MotorPins(in1, in2, in3, in4)).Success? ==>
        r.Success? && fresh(r.value) && r.value.Valid() && r.value.history == [] &&
        r.value.pins == MotorPins(in1, in2, in3, in4) &&
        r.value.sensors == Configure(trigPin, echoPin, MotorPins(in1, in2, in3, in4)).value
    {
      if !(ValidGpio(in1) && ValidGpio(in2) && ValidGpio(in3) && ValidGpio(in4)) {
        return Failure(InvalidPin);
      }
      var sensors := NoSensors;
      if trigPin.PinList? && echoPin.PinList? {
        var built := BuildSensorLists(trigPin.numbers, echoPin.numbers);
        if built.Failure? {
          return Failure(built.error);
        }
        sensors := built.value;
      } else if trigPin != NoPin && echoPin != NoPin {
        if !(trigPin.Pin? && echoPin.Pin? && ValidGpio(trigPin.number) && ValidGpio(echoPin.number)) {
          return Failure(InvalidPin);
        }
        sensors := Sensors([trigPin.number], [echoPin.number]);
      }
      var bot := new WheelBot(sensors, MotorPins(in1, in2, in3, in4));
      return Success(bot);
    }

    /** Sets the output pin numbered `pin` to `level`. */
    method SetPin(pin: int, level: Level)
      requires Valid()
      modifies this
      ensures Valid()
      ensures history == old(history) + [PinWrite(pin, level)]
      ensures levels == old(levels)[pin := level]
    {
      levels := levels[pin := level];
      history := history + [PinWrite(pin, level)];
      assert history[..|history| - 1] == old(history);
    }

    method Motor1(fir: bool)
      requires Valid()
      modifies this
      ensures Valid()
      ensures history == old(history) + Motor1Writes(pins, fir)
      ensures levels == Drive(old(levels), Motor1Writes(pins, fir))
    {
      if fir {
        SetPin(pins.in1, 1);
        SetPin(pins.in2, 0);
      } else {
        SetPin(pins.in1, 0);
        SetPin(pins.in2, 1);
      }
      DriveAppend(map[], old(history), Motor1Writes(pins, fir));
    }

    method Motor2(fir: bool)
      requires Valid()
      modifies this
      ensures Valid()
      ensures history == old(history) + Motor2Writes(pins, fir)
      ensures levels == Drive(old(levels), Motor2Writes(pins, fir))
    {
      if fir {
        SetPin(pins.in3, 1);
        SetPin(pins.in4, 0);
      } else {
        SetPin(pins.in3, 0);
        SetPin(pins.in4, 1);
      }
      DriveAppend(map[], old(history), Motor2Writes(pins, fir));
    }

    method Stop()
      requires Valid()
      modifies this
      ensures Valid()
      ensures history == old(history) + StopWrites(pins)
      ensures levels == Drive(old(levels), StopWrites(pins))
    {
      SetPin(pins.in1, 0);
      SetPin(pins.in2, 0);
      SetPin(pins.in3, 0);
      SetPin(pins.in4, 0);
      DriveAppend(map[], old(history), StopWrites(pins));
    }

    method Forward()
      requires Valid()
      modifies this
      ensures Valid()
      ensures history == old(history) + ForwardWrites(pins)
      ensures levels == Drive(old(levels), ForwardWrites(pins))
    {
      Motor1(true);
      Motor2(true);
      DriveAppend(map[], old(history), ForwardWrites(pins));
    }

    method Backward()
      requires Valid()
      modifies this
      ensures Valid()
      ensures history == old(history) + BackwardWrites(pins)
      ensures levels == Drive(old(levels), BackwardWrites(pins))
    {
      Motor1(false);
      Motor2(false);
      DriveAppend(map[], old(history), BackwardWrites(pins));
    }

    /** Turns left; the pause of `delay` seconds is not modelled, and the motors keep running. */
    method Left(delay: real)
      requires Valid()
      modifies this
      ensures Valid()
      ensures history == old(history) + LeftWrites(pins)
      ensures levels == Drive(old(levels), LeftWrites(pins))
    {
      Stop();
      Motor1(false);
      Motor2(true);
      DriveAppend(map[], old(history), LeftWrites(pins));
    }

    /** Turns right; the pause of `delay` seconds is not modelled, and the motors keep running. */
    method Right(delay: real)
      requires Valid()
      modifies this
      ensures Valid()
      ensures history == old(history) + RightWrites(pins)
      ensures levels == Drive(old(levels), RightWrites(pins))
    {
      Stop();
      Motor1(true);
      Motor2(false);
      DriveAppend(map[], old(history), RightWrites(pins));
    }
  }
}
