/**
  The native motor board (motorx.cpp): the per-motor duty encoder on top of
  the PCA9685 channel writes, the one-time initialisation guards, the
  broadcast stop, and the two quadrature encoders behind the native shims.

  Every write the board hands to the I2C transport is appended to a log;
  the transport itself is outside the model.
*/
module MotorX {
  import opened Pca9685
  import opened Quadrature

  datatype Option<T> = None | Some(value: T)

  /**
    One write handed to the I2C transport: the chip's mode and prescaler
    set-up (its register writes and read-back, as a single marker) or a
    five-byte channel frame.
  */
  datatype BusWrite = InitSequence | Frame(bytes: seq<bv8>)

  /** The calls the motion layer makes through the native shims. */
  datatype NativeCall =
    | InitNative
    | SetMotorSpeed(id: int, speed: int)
    | StopAll
    | EncReset
    | EncCountLeft
    | EncCountRight

  /** Highest channel index the broadcast stop writes (inclusive). */
  const LAST_STOP_CHANNEL: nat := 16

  /** Number of channels `initOnce` centres with a start-up servo pulse. */
  const SERVO_CHANNELS: nat := 16

  /**
    The "off" count of a 1500 us start-up pulse: 1500 * 0.2048 = 307.2,
    truncated by the conversion to `uint16_t`.
  */
  const CENTRE_PULSE: bv16 := 307

  /** The channel write of one start-up pulse. */
  function PulseWrite(ch: U8): BusWrite
  {
    Frame(PwmFrame(ch as bv8, 0, CENTRE_PULSE))
  }

  /** The start-up pulse writes of channels 0 to n-1, in order. */
  function PulseFrames(n: nat): (w: seq<BusWrite>)
    requires n <= 256
    ensures |w| == n
    decreases n
  {
    if n == 0 then [] else PulseFrames(n - 1) + [PulseWrite(n - 1)]
  }

  /**
    The i-th start-up write addresses channel i, switches on at count 0 and
    off at count 307: both channels of every motor pair carry a duty of
    307 right after set-up.
  */
  lemma {:induction false} PulseFramesAt(n: nat, i: nat)
    requires n <= 256 && i < n
    ensures PulseFrames(n)[i].Frame? && |PulseFrames(n)[i].bytes| == FRAME_LENGTH
    ensures PulseFrames(n)[i].bytes[0] == ChannelRegister(i as bv8)
    ensures OnCount(PulseFrames(n)[i].bytes) == 0 && OffCount(PulseFrames(n)[i].bytes) == CENTRE_PULSE
    decreases n
  {
    if i < n - 1 {
      PulseFramesAt(n - 1, i);
    }
  }

  /** The transport writes `initOnce` makes when the board is or is not yet initialised. */
  function InitWrites(inited: bool): seq<BusWrite>
  {
    if inited then [] else [InitSequence] + PulseFrames(SERVO_CHANNELS)
  }

  // ---------------------------------------------------------------------
  // Speed to duty
  // ---------------------------------------------------------------------

  /** The magnitude of a signed speed. */
  function Abs(x: int): nat
  {
    if x < 0 then -x else x
  }

  /** How far apart two speeds are. */
  function Distance(x: int, y: int): nat
  {
    Abs(x - y)
  }

  /**
    A requested speed limited to [-100, 100]: the value in that range
    nearest to the request, with the same sign.
  */
  function ClampSpeed(speed: int): (r: int)
    ensures -100 <= r <= 100
    ensures r > 0 <==> speed > 0
    ensures r < 0 <==> speed < 0
    ensures forall v :: -100 <= v <= 100 ==> Distance(speed, r) <= Distance(speed, v)
  {
    if speed > 100 then 100 else if speed < -100 then -100 else speed
  }

  /** A speed already in range is left as it is, so clamping twice is clamping once. */
  lemma ClampIdempotent(speed: int)
    ensures ClampSpeed(ClampSpeed(speed)) == ClampSpeed(speed)
    ensures -100 <= speed <= 100 ==> ClampSpeed(speed) == speed
  {
  }

  /**
    The 12-bit duty for a clamped speed: |speed| percent of 4095, rounded
    down.
  */
  function DutyOf(speed: int): (d: nat)
    requires -100 <= speed <= 100
    ensures d <= 4095
    ensures d * 100 <= Abs(speed) * 4095 < (d + 1) * 100
    ensures d == 0 <==> speed == 0
    ensures Abs(speed) == 100 ==> d == 4095
  {
    Abs(speed) * 4095 / 100
  }

  /** A faster request never yields a smaller duty. */
  lemma DutyMonotone(a: int, b: int)
    requires -100 <= a <= 100 && -100 <= b <= 100
    requires Abs(a) <= Abs(b)
    ensures DutyOf(a) <= DutyOf(b)
  {
  }

  /**
    The H-bridge channel pair of a motor: motor k uses channels 2(k-1) and
    2(k-1)+1; any other identifier has no channels.
  */
  function ChannelPair(id: int): (p: Option<(nat, nat)>)
    ensures p.Some? <==> 1 <= id <= 4
    ensures p.Some? ==> p.value.0 == 2 * (id - 1) && p.value.1 == p.value.0 + 1
  {
    if id == 1 then Some((0, 1))
    else if id == 2 then Some((2, 3))
    else if id == 3 then Some((4, 5))
    else if id == 4 then Some((6, 7))
    else None
  }

  /**
    The duties written to the pair's first and second channel for a clamped
    speed: the sign picks the side, the magnitude is the duty, and the other
    side is held at 0.
  */
  function SideDuties(speed: int): (ab: (nat, nat))
    requires -100 <= speed <= 100
    ensures ab.0 == 0 || ab.1 == 0
    ensures ab.0 + ab.1 == DutyOf(speed)
    ensures ab.0 > 0 <==> speed > 0
    ensures ab.1 > 0 <==> speed < 0
  {
    if speed > 0 then (DutyOf(speed), 0)
    else if speed < 0 then (0, DutyOf(speed))
    else (0, 0)
  }

  /** The channel write `pca9685_setDuty(ch, duty)` makes. */
  function DutyWrite(ch: U8, duty: U16): BusWrite
  {
    Frame(DutyFrame(ch, duty))
  }

  /** The channel writes `motor_run(id, speed)` makes after initialisation. */
  function MotorFrames(id: int, speed: int): seq<BusWrite>
  {
    match ChannelPair(id)
    case None => []
    case Some((chA, chB)) =>
      var (a, b) := SideDuties(ClampSpeed(speed));
      [DutyWrite(chA, a), DutyWrite(chB, b)]
  }

  /**
    What `motor_run` puts on the wire, read back from the frames: nothing
    for an unknown motor; otherwise two writes to the motor's channel pair,
    both switching on at count 0, exactly one side carrying the duty of the
    clamped speed in the direction of its sign, the other side off.
  */
  lemma MotorRunWrites(id: int, speed: int)
    ensures !(1 <= id <= 4) ==> MotorFrames(id, speed) == []
    ensures 1 <= id <= 4 ==>
      var w := MotorFrames(id, speed);
      var duty := DutyOf(ClampSpeed(speed)) as bv16;
      && |w| == 2 && w[0].Frame? && w[1].Frame?
      && |w[0].bytes| == FRAME_LENGTH && |w[1].bytes| == FRAME_LENGTH
      && w[0].bytes[0] == ChannelRegister((2 * (id - 1)) as bv8)
      && w[1].bytes[0] == ChannelRegister((2 * (id - 1) + 1) as bv8)
      && OnCount(w[0].bytes) == 0 && OnCount(w[1].bytes) == 0
      && (OffCount(w[0].bytes) == 0 || OffCount(w[1].bytes) == 0)
      && OffCount(w[0].bytes) == (if speed > 0 then duty else 0)
      && OffCount(w[1].bytes) == (if speed < 0 then duty else 0)
  {
  }

  /** The channel writes of the broadcast stop for channels 0 to n-1, in order. */
  function StopFrames(n: nat): (w: seq<BusWrite>)
    requires n <= 256
    ensures |w| == n
    decreases n
  {
    if n == 0 then [] else StopFrames(n - 1) + [DutyWrite(n - 1, 0)]
  }

  /**
    The i-th write of a broadcast stop addresses channel i and programs
    both counts to 0.
  */
  lemma {:induction false} StopFramesAt(n: nat, i: nat)
    requires n <= 256 && i < n
    ensures StopFrames(n)[i] == DutyWrite(i, 0)
    ensures StopFrames(n)[i].Frame? && |StopFrames(n)[i].bytes| == FRAME_LENGTH
    ensures StopFrames(n)[i].bytes[0] == ChannelRegister(i as bv8)
    ensures OnCount(StopFrames(n)[i].bytes) == 0 && OffCount(StopFrames(n)[i].bytes) == 0
    decreases n
  {
    if i < n - 1 {
      StopFramesAt(n - 1, i);
    }
  }

  /**
    `stopNative` writes 17 frames, for channels 0 through 16, every one of
    them with both counts 0. The last one addresses register 0x46, past the
    registers of channel 15.
  */
  lemma StopAllWrites()
    ensures |StopFrames(LAST_STOP_CHANNEL + 1)| == 17
    ensures forall i :: 0 <= i <= LAST_STOP_CHANNEL ==>
      StopFrames(LAST_STOP_CHANNEL + 1)[i] == DutyWrite(i, 0)
    ensures StopFrames(LAST_STOP_CHANNEL + 1)[16].bytes[0] == 0x46
  {
    forall i | 0 <= i <= LAST_STOP_CHANNEL
      ensures StopFrames(LAST_STOP_CHANNEL + 1)[i] == DutyWrite(i, 0)
    {
      StopFramesAt(LAST_STOP_CHANNEL + 1, i);
    }
    StopFramesAt(LAST_STOP_CHANNEL + 1, 16);
  }

  // ---------------------------------------------------------------------
  // The board's state and the native entry points
  // ---------------------------------------------------------------------

  /**
    The static state of motorx.cpp: the two initialisation flags, the two
    encoder decoders and the log of writes handed to the I2C transport.
  */
  class Board {
    var inited: bool
    var encInited: bool
    var bus: seq<BusWrite>
    const left: QDec
    const right: QDec

    ghost predicate Valid()
      reads this
    {
      left != right
    }

    /** The state at power-up: nothing initialised, nothing written, both decoders zero. */
    constructor ()
      ensures Valid()
      ensures !inited && !encInited && bus == []
      ensures fresh(left) && fresh(right)
      ensures left.count == 0 && left.prev == 0 && right.count == 0 && right.prev == 0
    {
      inited := false;
      encInited := false;
      bus := [];
      left := new QDec();
      right := new QDec();
    }

    /**
      `initOnce`: on the first call only, sets the chip up and centres
      every servo channel with a 1500 us pulse.
    */
    method InitOnce()
      modifies this`inited, this`bus
      ensures inited
      ensures bus == old(bus) + InitWrites(old(inited))
    {
      if inited {
        return;
      }
      inited := true;
      bus := bus + [InitSequence];
      var i := 0;
      while i < SERVO_CHANNELS
        invariant 0 <= i <= SERVO_CHANNELS
        invariant inited
        invariant bus == old(bus) + [InitSequence] + PulseFrames(i)
      {
        SetPwm(i as bv8, 0, CENTRE_PULSE);
        i := i + 1;
      }
    }

    /** `pca9685_setPWM`: fills a five-byte buffer and hands it to the transport. */
    method SetPwm(ch: bv8, on: bv16, off: bv16)
      modifies this`bus
      ensures bus == old(bus) + [Frame(PwmFrame(ch, on, off))]
    {
      var reg := LED0_ON_L + 4 * ch;
      var buf := new bv8[5];
      buf[0] := reg;
      buf[1] := (on & 0xFF) as bv8;
      buf[2] := ((on >> 8) & 0x0F) as bv8;
      buf[3] := (off & 0xFF) as bv8;
      buf[4] := ((off >> 8) & 0x0F) as bv8;
      assert buf[..] == [buf[0], buf[1], buf[2], buf[3], buf[4]];
      bus := bus + [Frame(buf[..])];
    }

    /** `pca9685_setDuty`: on at count 0, off at the duty saturated at 4095. */
    method SetDuty(ch: U8, duty: U16)
      modifies this`bus
      ensures bus == old(bus) + [DutyWrite(ch, duty)]
    {
      if duty >= 4095 {
        assert DutyWrite(ch, duty) == Frame(PwmFrame(ch as bv8, 0, 4095)) by {
          assert DutyOff(duty) == 4095;
        }
        SetPwm(ch as bv8, 0, 4095);
      } else {
        assert DutyWrite(ch, duty) == Frame(PwmFrame(ch as bv8, 0, duty as bv16)) by {
          assert DutyOff(duty) == duty;
        }
        SetPwm(ch as bv8, 0, duty as bv16);
      }
    }

    /** `motor_run` (the `setMotorSpeedNative` shim). */
    method MotorRun(id: int, speed: int)
      modifies this`inited, this`bus
      ensures inited
      ensures bus == old(bus) + InitWrites(old(inited)) + MotorFrames(id, speed)
    {
      InitOnce();
      DriveMotor(id, speed);
    }

    /** The part of `motor_run` after `initOnce`: clamp, duty, channel pair, two duty writes. */
    method DriveMotor(id: int, speed: int)
      modifies this`bus
      ensures bus == old(bus) + MotorFrames(id, speed)
    {
      var s := speed;
      if s > 100 {
        s := 100;
      }
      if s < -100 {
        s := -100;
      }
      assert s == ClampSpeed(speed);
      var duty := Abs(s) * 4095 / 100;
      assert duty == DutyOf(s);
      var chA, chB := 0, 0;
      if id == 1 {
        chA, chB := 0, 1;
      } else if id == 2 {
        chA, chB := 2, 3;
      } else if id == 3 {
        chA, chB := 4, 5;
      } else if id == 4 {
        chA, chB := 6, 7;
      } else {
        assert MotorFrames(id, speed) == [];
        return;
      }
      assert ChannelPair(id) == Some((chA, chB));
      ghost var frames := [DutyWrite(chA, SideDuties(s).0), DutyWrite(chB, SideDuties(s).1)];
      assert MotorFrames(id, speed) == frames;
      var dutyA, dutyB := 0, 0;
      if s > 0 {
        dutyA := duty;
      } else if s < 0 {
        dutyB := duty;
      }
      assert (dutyA, dutyB) == SideDuties(s);
      SetDuty(chA, dutyA);
      SetDuty(chB, dutyB);
      assert bus == old(bus) + [DutyWrite(chA, dutyA)] + [DutyWrite(chB, dutyB)];
    }

    /** `stopNative`: duty 0 on every channel index from 0 to 16. */
    method StopNative()
      modifies this`inited, this`bus
      ensures inited
      ensures bus == old(bus) + InitWrites(old(inited)) + StopFrames(LAST_STOP_CHANNEL + 1)
    {
      InitOnce();
      var i := 0;
      while i <= LAST_STOP_CHANNEL
        invariant 0 <= i <= LAST_STOP_CHANNEL + 1
        invariant inited
        invariant bus == old(bus) + InitWrites(old(inited)) + StopFrames(i)
      {
        SetDuty(i, 0);
        i := i + 1;
      }
    }

    /**
      `encInitOnce`: on the first call zeroes both counters and records the
      current readings of both encoders (`leftAB`, `rightAB`); later calls
      change nothing.
    */
    method EncInitOnce(leftAB: Phase, rightAB: Phase)
      requires Valid()
      modifies this`encInited, left, right
      ensures encInited
      ensures old(encInited) ==> unchanged(left, right)
      ensures !old(encInited) ==>
        left.count == 0 && left.prev == leftAB && right.count == 0 && right.prev == rightAB
    {
      if encInited {
        return;
      }
      encInited := true;
      left.count := 0;
      left.prev := leftAB;
      right.count := 0;
      right.prev := rightAB;
    }

    /** `encResetNative`: both counters to 0, last readings kept. */
    method EncResetNative(leftAB: Phase, rightAB: Phase)
      requires Valid()
      modifies this`encInited, left, right
      ensures encInited
      ensures left.count == 0 && right.count == 0
      ensures left.prev == (if old(encInited) then old(left.prev) else leftAB)
      ensures right.prev == (if old(encInited) then old(right.prev) else rightAB)
    {
      EncInitOnce(leftAB, rightAB);
      left.count := 0;
      right.count := 0;
    }

    /** `encCountLeftNative`: the left counter, 0 on the very first encoder call. */
    method EncCountLeftNative(leftAB: Phase, rightAB: Phase) returns (n: int)
      requires Valid()
      modifies this`encInited, left, right
      ensures encInited
      ensures n == left.count
      ensures n == (if old(encInited) then old(left.count) else 0)
      ensures old(encInited) ==> unchanged(left, right)
      ensures !old(encInited) ==>
        left.count == 0 && left.prev == leftAB && right.count == 0 && right.prev == rightAB
    {
      EncInitOnce(leftAB, rightAB);
      n := left.count;
    }

    /** `encCountRightNative`: the right counter, 0 on the very first encoder call. */
    method EncCountRightNative(leftAB: Phase, rightAB: Phase) returns (n: int)
      requires Valid()
      modifies this`encInited, left, right
      ensures encInited
      ensures n == right.count
      ensures n == (if old(encInited) then old(right.count) else 0)
      ensures old(encInited) ==> unchanged(left, right)
      ensures !old(encInited) ==>
        left.count == 0 && left.prev == leftAB && right.count == 0 && right.prev == rightAB
    {
      EncInitOnce(leftAB, rightAB);
      n := right.count;
    }

    /** `onEncLeftEvent`: an edge on the left encoder, read as `curr`. */
    method OnEncLeftEvent(curr: Phase)
      requires Valid()
      modifies left
      ensures left.count == old(left.count) + Delta(old(left.prev), curr)
      ensures left.prev == curr
      ensures unchanged(right)
    {
      left.Step(curr);
    }

    /** `onEncRightEvent`: an edge on the right encoder, read as `curr`. */
    method OnEncRightEvent(curr: Phase)
      requires Valid()
      modifies right
      ensures right.count == old(right.count) + Delta(old(right.prev), curr)
      ensures right.prev == curr
      ensures unchanged(left)
    {
      right.Step(curr);
    }

    /**
      Carries out one call of the motion layer through the native shims;
      `leftAB` and `rightAB` are the encoder readings at that moment, and
      `n` is what an encoder count call returns (0 for the other calls).
    */
    method Perform(c: NativeCall, leftAB: Phase, rightAB: Phase) returns (n: int)
      requires Valid()
      modifies this`inited, this`encInited, this`bus, left, right
      // the motor calls: set-up on first use, then their frames; encoders untouched
      ensures c.InitNative? ==> bus == old(bus) + InitWrites(old(inited))
      ensures c.SetMotorSpeed? ==> bus == old(bus) + InitWrites(old(inited)) + MotorFrames(c.id, c.speed)
      ensures c.StopAll? ==> bus == old(bus) + InitWrites(old(inited)) + StopFrames(LAST_STOP_CHANNEL + 1)
      ensures c.InitNative? || c.SetMotorSpeed? || c.StopAll? ==>
        inited && encInited == old(encInited) && unchanged(left, right) && n == 0
      // the encoder calls: decoders set up on first use; no bus traffic
      ensures c.EncReset? || c.EncCountLeft? || c.EncCountRight? ==>
        bus == old(bus) && inited == old(inited) && encInited
      ensures c.EncReset? ==> left.count == 0 && right.count == 0 && n == 0
      ensures c.EncReset? ==>
        left.prev == (if old(encInited) then old(left.prev) else leftAB)
        && right.prev == (if old(encInited) then old(right.prev) else rightAB)
      ensures c.EncCountLeft? || c.EncCountRight? ==>
        (old(encInited) ==> unchanged(left, right))
        && (!old(encInited) ==>
              left.count == 0 && left.prev == leftAB && right.count == 0 && right.prev == rightAB)
      ensures c.EncCountLeft? ==> n == (if old(encInited) then old(left.count) else 0)
      ensures c.EncCountRight? ==> n == (if old(encInited) then old(right.count) else 0)
    {
      n := 0;
      match c
      case InitNative => InitOnce();
      case SetMotorSpeed(id, speed) => MotorRun(id, speed);
      case StopAll => StopNative();
      case EncReset => EncResetNative(leftAB, rightAB);
      case EncCountLeft => n := EncCountLeftNative(leftAB, rightAB);
      case EncCountRight => n := EncCountRightNative(leftAB, rightAB);
    }
  }
}
