/**
  The motion-command layer (main.ts): single and broadcast motor commands,
  the mecanum direction and spin vectors, the 2-wheel line-following
  decision, the line polarity setting and the encoder selectors.

  Every command reaches the board through the native shims; the model
  records those calls, in order, as a log of `NativeCall`s. Pin readings
  and the values the encoder shims return are parameters.
*/
module Motion {
  import opened MotorX
  import opened Quadrature

  /** The motor selector: four motors and the broadcast value. */
  datatype MotorList = M1 | M2 | M3 | M4 | All {
    /** The numeric value of the selector, as passed to the native shims. */
    function Code(): (c: int)
      ensures All? <==> c == 99
      ensures !All? ==> 1 <= c <= 4
      ensures M1? ==> c == 1
      ensures M2? ==> c == 2
      ensures M3? ==> c == 3
      ensures M4? ==> c == 4
    {
      match this
      case M1 => 1
      case M2 => 2
      case M3 => 3
      case M4 => 4
      case All => 99
    }
  }

  /** The line colour: a black line on a white floor, or a white line on a black floor. */
  datatype LineColor = Black | White {
    /** The pin level that means "on the line" for this colour. */
    function Level(): (v: int)
      ensures v == 0 || v == 1
      ensures v == 0 <==> Black?
    {
      if Black? then 0 else 1
    }
  }

  /** The eight mecanum directions. */
  datatype MoveDir = Forward | Back | Left | Right | LeftFront | RightFront | LeftBack | RightBack

  /** Speeds for motors M1 (front left), M2 (front right), M3 (rear left) and M4 (rear right). */
  type Wheels = w: seq<int> | |w| == 4 witness [0, 0, 0, 0]

  /** The four calls `setAll` makes: motors 1 to 4, in order. */
  function WheelCalls(w: Wheels): (calls: seq<NativeCall>)
    ensures |calls| == 4
    ensures forall i :: 0 <= i < 4 ==> calls[i] == SetMotorSpeed(i + 1, w[i])
  {
    [SetMotorSpeed(1, w[0]), SetMotorSpeed(2, w[1]), SetMotorSpeed(3, w[2]), SetMotorSpeed(4, w[3])]
  }

  /** The wheel vector with every speed reversed. */
  function Negate(w: Wheels): (n: Wheels)
    ensures forall i :: 0 <= i < 4 ==> n[i] == -w[i]
  {
    [-w[0], -w[1], -w[2], -w[3]]
  }

  // ---------------------------------------------------------------------
  // Mecanum kinematics
  // ---------------------------------------------------------------------

  /** The wheel speeds `mecanumMove(dir, s)` writes. */
  function MecanumVector(dir: MoveDir, s: int): (w: Wheels)
    ensures forall i :: 0 <= i < 4 ==> w[i] == 0 || w[i] == s || w[i] == -s
  {
    match dir
    case Forward => [s, s, s, s]
    case Back => [-s, -s, -s, -s]
    case Left => [-s, s, s, -s]
    case Right => [s, -s, -s, s]
    case LeftFront => [0, s, s, 0]
    case RightFront => [s, 0, 0, s]
    case LeftBack => [-s, 0, 0, -s]
    case RightBack => [0, -s, -s, 0]
  }

  /** The wheel speeds `mecanumSpin(left, s)` writes. */
  function SpinVector(left: bool, s: int): (w: Wheels)
    ensures forall i :: 0 <= i < 4 ==> w[i] == s || w[i] == -s
  {
    if left then [s, -s, s, -s] else [-s, s, -s, s]
  }

  /** Forward drive of a mecanum chassis: the sum of all wheel speeds. */
  function Advance(w: Wheels): int
  {
    w[0] + w[1] + w[2] + w[3]
  }

  /** Sideways drive to the right: front-left and rear-right against the other two. */
  function Strafe(w: Wheels): int
  {
    w[0] - w[1] - w[2] + w[3]
  }

  /** Turning drive: left wheels (M1, M3) against right wheels (M2, M4); positive turns clockwise. */
  function Turn(w: Wheels): int
  {
    w[0] - w[1] + w[2] - w[3]
  }

  /** The unit heading of a direction: (right, forward) components, each -1, 0 or 1. */
  function Heading(dir: MoveDir): (int, int)
  {
    match dir
    case Forward => (0, 1)
    case Back => (0, -1)
    case Left => (-1, 0)
    case Right => (1, 0)
    case LeftFront => (-1, 1)
    case RightFront => (1, 1)
    case LeftBack => (-1, -1)
    case RightBack => (1, -1)
  }

  /**
    Every direction vector drives the chassis along its named heading and
    never turns it: a straight heading gets the whole drive 4s on its axis,
    a diagonal one splits it as 2s on each axis.
  */
  lemma MecanumKinematics(dir: MoveDir, s: int)
    ensures var (dx, dy) := Heading(dir);
      var w := MecanumVector(dir, s);
      && Turn(w) == 0
      && Advance(w) == 2 * s * dy * (2 - dx * dx)
      && Strafe(w) == 2 * s * dx * (2 - dy * dy)
  {
  }

  /** The direction pointing the other way. */
  function Opposite(dir: MoveDir): (o: MoveDir)
    ensures Heading(o).0 == -Heading(dir).0 && Heading(o).1 == -Heading(dir).1
  {
    match dir
    case Forward => Back
    case Back => Forward
    case Left => Right
    case Right => Left
    case LeftFront => RightBack
    case RightBack => LeftFront
    case RightFront => LeftBack
    case LeftBack => RightFront
  }

  /** Opposite directions get exactly negated wheel vectors. */
  lemma MecanumOpposite(dir: MoveDir, s: int)
    ensures Opposite(Opposite(dir)) == dir
    ensures MecanumVector(Opposite(dir), s) == Negate(MecanumVector(dir, s))
  {
  }

  /** Each diagonal is the average of its two neighbouring straight directions. */
  lemma MecanumDiagonals(s: int)
    ensures forall i :: 0 <= i < 4 ==>
      && 2 * MecanumVector(LeftFront, s)[i] == MecanumVector(Forward, s)[i] + MecanumVector(Left, s)[i]
      && 2 * MecanumVector(RightFront, s)[i] == MecanumVector(Forward, s)[i] + MecanumVector(Right, s)[i]
      && 2 * MecanumVector(LeftBack, s)[i] == MecanumVector(Back, s)[i] + MecanumVector(Left, s)[i]
      && 2 * MecanumVector(RightBack, s)[i] == MecanumVector(Back, s)[i] + MecanumVector(Right, s)[i]
  {
  }

  /**
    The two spins are exact negations of each other, and a spin only
    turns: no forward or sideways drive. With `left` set the left wheels
    run forward and the right wheels backward (clockwise for s > 0).
  */
  lemma SpinKinematics(s: int)
    ensures SpinVector(false, s) == Negate(SpinVector(true, s))
    ensures forall left: bool :: Advance(SpinVector(left, s)) == 0 && Strafe(SpinVector(left, s)) == 0
    ensures Turn(SpinVector(true, s)) == 4 * s && Turn(SpinVector(false, s)) == -4 * s
  {
  }

  // ---------------------------------------------------------------------
  // Line following
  // ---------------------------------------------------------------------

  /** A pin reading means "on the line" when it equals the polarity level. */
  predicate OnLine(reading: int, lineLogic: int)
  {
    reading == lineLogic
  }

  /** For a 0/1 reading, the two line colours give opposite answers. */
  lemma PolarityFlip(reading: int)
    requires reading == 0 || reading == 1
    ensures OnLine(reading, Black.Level()) != OnLine(reading, White.Level())
  {
  }

  /** The normalised sensors s1..s4 of `trackLineStrong`. */
  datatype Pattern = Pattern(s1: bool, s2: bool, s3: bool, s4: bool)

  /**
    Normalises the readings of pins P12, P13, P14 and P15: s4 from P12, s3
    from P13, s1 from P14 and s2 from P15.
  */
  function ReadSensors(p12: int, p13: int, p14: int, p15: int, lineLogic: int): (p: Pattern)
    ensures p.s1 <==> OnLine(p14, lineLogic)
    ensures p.s2 <==> OnLine(p15, lineLogic)
    ensures p.s3 <==> OnLine(p13, lineLogic)
    ensures p.s4 <==> OnLine(p12, lineLogic)
  {
    Pattern(OnLine(p14, lineLogic), OnLine(p15, lineLogic), OnLine(p13, lineLogic), OnLine(p12, lineLogic))
  }

  /** The pattern with every sensor inverted. */
  function Complement(p: Pattern): Pattern
  {
    Pattern(!p.s1, !p.s2, !p.s3, !p.s4)
  }

  /** For 0/1 readings, switching the line colour complements every sensor. */
  lemma PolarityFlipsPattern(p12: int, p13: int, p14: int, p15: int)
    requires p12 in {0, 1} && p13 in {0, 1} && p14 in {0, 1} && p15 in {0, 1}
    ensures ReadSensors(p12, p13, p14, p15, Black.Level()) ==
            Complement(ReadSensors(p12, p13, p14, p15, White.Level()))
  {
  }

  /** Reduced forward speed of the inner wheel on a mild correction. */
  const SLOW_SPEED: int := 20

  /** Reverse speed of the inner wheel on a hard correction. */
  const BRAKE_SPEED: int := -40

  /**
    The (motor 1, motor 2) speeds `trackLineStrong` writes: the first of
    six branches whose condition holds.
  */
  function Steer(p: Pattern, speed: int): (m: (int, int))
    ensures m.0 == speed || m.1 == speed
    ensures m.0 in {speed, SLOW_SPEED, BRAKE_SPEED} && m.1 in {speed, SLOW_SPEED, BRAKE_SPEED}
  {
    if (p.s2 && p.s3) || (!p.s1 && p.s2 && !p.s3 && !p.s4) || (!p.s1 && !p.s2 && p.s3 && !p.s4) then (speed, speed)
    else if !p.s3 && p.s2 then (SLOW_SPEED, speed)
    else if p.s1 then (BRAKE_SPEED, speed)
    else if p.s3 && !p.s4 then (speed, SLOW_SPEED)
    else if p.s4 then (speed, BRAKE_SPEED)
    else (speed, speed)
  }

  /** A condition on one sensor in a decision rule. */
  datatype Lit = Any | On | Off {
    predicate Admits(b: bool)
    {
      match this
      case Any => true
      case On => b
      case Off => !b
    }
  }

  /** What a decision rule gives a motor: the base speed, the slow speed or the reverse speed. */
  datatype Drive = Base | Slow | Brake {
    function Speed(base: int): int
    {
      match this
      case Base => base
      case Slow => SLOW_SPEED
      case Brake => BRAKE_SPEED
    }
  }

  /** One row of the decision table: a condition on s1..s4 and the drive of motors 1 and 2. */
  datatype Rule = Rule(s1: Lit, s2: Lit, s3: Lit, s4: Lit, m1: Drive, m2: Drive) {
    predicate Matches(p: Pattern)
    {
      s1.Admits(p.s1) && s2.Admits(p.s2) && s3.Admits(p.s3) && s4.Admits(p.s4)
    }
  }

  /** The line-following policy as an ordered table; the first matching row decides. */
  const RULES: seq<Rule> := [
    Rule(Any, On, On, Any, Base, Base),    // both inner sensors on the line
    Rule(Off, On, Off, Off, Base, Base),   // only s2
    Rule(Off, Off, On, Off, Base, Base),   // only s3
    Rule(Any, On, Off, Any, Slow, Base),   // s2 without s3: mild correction
    Rule(On, Any, Any, Any, Brake, Base),  // s1: hard correction
    Rule(Any, Any, On, Off, Base, Slow),   // s3 without s4: mild correction
    Rule(Any, Any, Any, On, Base, Brake),  // s4: hard correction
    Rule(Any, Any, Any, Any, Base, Base)   // nothing decisive: keep going
  ]

  /** Row `i` of `rules` is `rule`, matches `p`, and no earlier row matches `p`. */
  predicate DecidesAt(rules: seq<Rule>, p: Pattern, i: int, rule: Rule)
  {
    0 <= i < |rules| && rules[i] == rule && rule.Matches(p)
    && forall j :: 0 <= j < i ==> !rules[j].Matches(p)
  }

  /** The first rule of `rules` that matches `p`, if any. */
  function FirstMatch(rules: seq<Rule>, p: Pattern): (r: Option<Rule>)
    ensures r.Some? ==> exists i :: DecidesAt(rules, p, i, r.value)
    ensures r.None? <==> forall i :: 0 <= i < |rules| ==> !rules[i].Matches(p)
    decreases |rules|
  {
    if rules == [] then None
    else if rules[0].Matches(p) then
      assert DecidesAt(rules, p, 0, rules[0]);
      Some(rules[0])
    else
      var r := FirstMatch(rules[1..], p);
      assert r.Some? ==> forall k :: DecidesAt(rules[1..], p, k, r.value) ==> DecidesAt(rules, p, k + 1, r.value);
      r
  }

  /**
    The branch chain of `trackLineStrong` is the decision table read top
    to bottom: for every pattern some row matches, and the first one gives
    exactly the speeds the chain writes.
  */
  lemma SteerFollowsTable(p: Pattern, speed: int)
    ensures FirstMatch(RULES, p).Some?
    ensures var r := FirstMatch(RULES, p).value;
      Steer(p, speed) == (r.m1.Speed(speed), r.m2.Speed(speed))
  {
    var t := RULES;
    assert FirstMatch(t[7..], p) == Some(t[7]) by {
      assert t[7].Matches(p);
    }
    assert FirstMatch(t[6..], p) == (if t[6].Matches(p) then Some(t[6]) else FirstMatch(t[7..], p));
    assert FirstMatch(t[5..], p) == (if t[5].Matches(p) then Some(t[5]) else FirstMatch(t[6..], p));
    assert FirstMatch(t[4..], p) == (if t[4].Matches(p) then Some(t[4]) else FirstMatch(t[5..], p));
    assert FirstMatch(t[3..], p) == (if t[3].Matches(p) then Some(t[3]) else FirstMatch(t[4..], p));
    assert FirstMatch(t[2..], p) == (if t[2].Matches(p) then Some(t[2]) else FirstMatch(t[3..], p));
    assert FirstMatch(t[1..], p) == (if t[1].Matches(p) then Some(t[1]) else FirstMatch(t[2..], p));
    assert FirstMatch(t, p) == (if t[0].Matches(p) then Some(t[0]) else FirstMatch(t[1..], p));
  }

  /** With all sensors equal (line lost, or a crossing) both motors run at the base speed. */
  lemma UniformPatternGoesStraight(b: bool, speed: int)
    ensures Steer(Pattern(b, b, b, b), speed) == (speed, speed)
  {
  }

  /** The branch outcomes for the single-sensor patterns. */
  lemma SingleSensorOutcomes(speed: int)
    ensures Steer(Pattern(true, false, false, false), speed) == (BRAKE_SPEED, speed)
    ensures Steer(Pattern(false, true, false, false), speed) == (speed, speed)
    ensures Steer(Pattern(false, false, true, false), speed) == (speed, speed)
    ensures Steer(Pattern(false, false, false, true), speed) == (speed, BRAKE_SPEED)
  {
  }

  /** The two calls `trackLineStrong` makes: motor 1, then motor 2. */
  function SteerCalls(m: (int, int)): seq<NativeCall>
  {
    [SetMotorSpeed(1, m.0), SetMotorSpeed(2, m.1)]
  }

  // ---------------------------------------------------------------------
  // Encoders
  // ---------------------------------------------------------------------

  /**
    The value `encoderCount` returns, given what the two count shims
    return: M1 reads the left counter, M2 the right one, every other
    selector has no encoder and reads 0.
  */
  function SelectedCount(motor: MotorList, leftCount: int, rightCount: int): (n: int)
    ensures motor == M1 ==> n == leftCount
    ensures motor == M2 ==> n == rightCount
    ensures motor != M1 && motor != M2 ==> n == 0
  {
    if motor == M1 then leftCount else if motor == M2 then rightCount else 0
  }

  /**
    `encoderReset` followed by `encoderCount` on the board: whatever the
    readings at each call and whichever selector is read, the count is 0
    and nothing is written to the bus.
  */
  method ResetThenCount(b: Board, motor: MotorList, leftAB: Phase, rightAB: Phase, leftAB2: Phase, rightAB2: Phase)
    returns (n: int)
    requires b.Valid()
    modifies b, b.left, b.right
    ensures n == 0
    ensures b.bus == old(b.bus)
  {
    var reset := b.Perform(EncReset, leftAB, rightAB);
    n := 0;
    if motor == M1 {
      n := b.Perform(EncCountLeft, leftAB2, rightAB2);
    } else if motor == M2 {
      n := b.Perform(EncCountRight, leftAB2, rightAB2);
    }
  }

  // ---------------------------------------------------------------------
  // The module state and the commands
  // ---------------------------------------------------------------------

  /** The state of the main.ts namespace: the line polarity and the calls made so far. */
  class Controller {
    var lineLogic: int
    var calls: seq<NativeCall>

    ghost predicate Valid()
      reads this
    {
      lineLogic == 0 || lineLogic == 1
    }

    /** Module load: the polarity starts at 1 (white line) and nothing has been called. */
    constructor ()
      ensures Valid()
      ensures lineLogic == 1 && calls == []
    {
      lineLogic := 1;
      calls := [];
    }

    /** `init`. */
    method Init()
      modifies this`calls
      ensures calls == old(calls) + [InitNative]
    {
      calls := calls + [InitNative];
    }

    /** `setSpeed`: the broadcast selector writes motors 1 to 4 in order, any other one only its motor. */
    method SetSpeed(motor: MotorList, speed: int)
      modifies this`calls
      ensures motor == All ==> calls == old(calls) + WheelCalls([speed, speed, speed, speed])
      ensures motor != All ==> calls == old(calls) + [SetMotorSpeed(motor.Code(), speed)]
    {
      if motor == All {
        calls := calls + [SetMotorSpeed(1, speed)];
        calls := calls + [SetMotorSpeed(2, speed)];
        calls := calls + [SetMotorSpeed(3, speed)];
        calls := calls + [SetMotorSpeed(4, speed)];
      } else {
        calls := calls + [SetMotorSpeed(motor.Code(), speed)];
      }
    }

    /** `stop`: the broadcast selector stops the whole board, any other one sets its motor to 0. */
    method Stop(motor: MotorList)
      modifies this`calls
      ensures motor == All ==> calls == old(calls) + [StopAll]
      ensures motor != All ==> calls == old(calls) + [SetMotorSpeed(motor.Code(), 0)]
    {
      if motor == All {
        calls := calls + [StopAll];
      } else {
        calls := calls + [SetMotorSpeed(motor.Code(), 0)];
      }
    }

    /** `setAll`: motors 1 to 4 in order. */
    method SetAll(m1: int, m2: int, m3: int, m4: int)
      modifies this`calls
      ensures calls == old(calls) + WheelCalls([m1, m2, m3, m4])
    {
      calls := calls + [SetMotorSpeed(1, m1)];
      calls := calls + [SetMotorSpeed(2, m2)];
      calls := calls + [SetMotorSpeed(3, m3)];
      calls := calls + [SetMotorSpeed(4, m4)];
    }

    /** `mecanumMove`. */
    method MecanumMove(dir: MoveDir, speed: int)
      modifies this`calls
      ensures calls == old(calls) + WheelCalls(MecanumVector(dir, speed))
    {
      var s := speed;
      match dir
      case Forward => SetAll(s, s, s, s);
      case Back => SetAll(-s, -s, -s, -s);
      case Left => SetAll(-s, s, s, -s);
      case Right => SetAll(s, -s, -s, s);
      case LeftFront => SetAll(0, s, s, 0);
      case RightFront => SetAll(s, 0, 0, s);
      case LeftBack => SetAll(-s, 0, 0, -s);
      case RightBack => SetAll(0, -s, -s, 0);
    }

    /** `mecanumSpin`. */
    method MecanumSpin(left: bool, speed: int)
      modifies this`calls
      ensures calls == old(calls) + WheelCalls(SpinVector(left, speed))
    {
      if left {
        SetAll(speed, -speed, speed, -speed);
      } else {
        SetAll(-speed, speed, -speed, speed);
      }
    }

    /**
      `trackLineStrong`, given the readings of pins P12, P13, P14 and P15:
      two calls, motor 1 then motor 2, with the speeds of the decision.
    */
    method TrackLineStrong(speed: int, p12: int, p13: int, p14: int, p15: int)
      modifies this`calls
      ensures calls == old(calls) + SteerCalls(Steer(ReadSensors(p12, p13, p14, p15, lineLogic), speed))
    {
      var s4 := p12 == lineLogic;
      var s3 := p13 == lineLogic;
      var s1 := p14 == lineLogic;
      var s2 := p15 == lineLogic;
      var (m1, m2) := Steer(Pattern(s1, s2, s3, s4), speed);
      calls := calls + [SetMotorSpeed(1, m1)];
      calls := calls + [SetMotorSpeed(2, m2)];
    }

    /** `setLineColor`. */
    method SetLineColor(color: LineColor)
      modifies this`lineLogic
      ensures Valid()
      ensures lineLogic == color.Level()
    {
      lineLogic := color.Level();
    }

    /** `isLineDetected`, given the reading of the sensor's pin. */
    function IsLineDetected(reading: int): (r: bool)
      reads this
      requires Valid()
      ensures r <==> OnLine(reading, lineLogic)
      ensures reading != 0 && reading != 1 ==> !r
    {
      reading == lineLogic
    }

    /** `encoderReset`: the selector is ignored and both counters are reset. */
    method EncoderReset(motor: MotorList)
      modifies this`calls
      ensures calls == old(calls) + [EncReset]
    {
      calls := calls + [EncReset];
    }

    /**
      `encoderCount`: M1 and M2 call their count shim, which returns
      `leftCount` or `rightCount`; the other selectors make no call.
    */
    method EncoderCount(motor: MotorList, leftCount: int, rightCount: int) returns (n: int)
      modifies this`calls
      ensures n == SelectedCount(motor, leftCount, rightCount)
      ensures motor == M1 ==> calls == old(calls) + [EncCountLeft]
      ensures motor == M2 ==> calls == old(calls) + [EncCountRight]
      ensures motor != M1 && motor != M2 ==> calls == old(calls)
    {
      if motor == M1 {
        calls := calls + [EncCountLeft];
        return leftCount;
      }
      if motor == M2 {
        calls := calls + [EncCountRight];
        return rightCount;
      }
      return 0;
    }
  }
}
