/**
  Register-level encoding of one PWM channel update on the PCA9685 driver
  chip: the five bytes `pca9685_setPWM` hands to the I2C transport, and the
  saturation `pca9685_setDuty` applies before it.

  Each channel owns four consecutive registers starting at
  LED0_ON_L + 4 * channel: the 12-bit "on" count (low byte, then the high
  nibble) and the 12-bit "off" count (low byte, then the high nibble).
*/
module Pca9685 {

  /** Register address of LED0_ON_L, the first register of channel 0. */
  const LED0_ON_L: bv8 := 0x06

  /** The largest 12-bit count, a permanently high output. */
  const FULL_SCALE: bv16 := 4095

  /** Number of bytes in one channel write: the register and four data bytes. */
  const FRAME_LENGTH: nat := 5

  /** The first register of channel `ch`; the sum is truncated to eight bits, as storing it in a `uint8_t` does. */
  function ChannelRegister(ch: bv8): (reg: bv8)
    ensures reg as int == (6 + 4 * ch as int) % 0x100
    ensures ch <= 62 ==> reg as int == 6 + 4 * ch as int
  {
    LED0_ON_L + 4 * ch
  }

  /** The 12-bit count a low byte and a high byte stand for, as the chip reassembles it. */
  function Count12(lo: bv8, hi: bv8): bv16
  {
    (lo as bv16) | ((hi as bv16) << 8)
  }

  /** The low byte of a count. */
  function LowByte(x: bv16): bv8
  {
    (x & 0xFF) as bv8
  }

  /** The high nibble of a 12-bit count, as a byte. */
  function HighNibble(x: bv16): (b: bv8)
    ensures b <= 0x0F
  {
    ((x >> 8) & 0x0F) as bv8
  }

  /** Splitting a count into its low byte and high nibble keeps exactly its low twelve bits. */
  lemma SplitRoundTrip(x: bv16)
    ensures Count12(LowByte(x), HighNibble(x)) == x & 0x0FFF
    ensures x <= FULL_SCALE ==> Count12(LowByte(x), HighNibble(x)) == x
  {
  }

  /**
    The frame written for channel `ch` with counts `on` and `off`. Reading
    the two counts back out of the frame gives their low twelve bits.
  */
  function PwmFrame(ch: bv8, on: bv16, off: bv16): (f: seq<bv8>)
    ensures |f| == FRAME_LENGTH
    ensures f[0] == ChannelRegister(ch)
    ensures f[2] <= 0x0F && f[4] <= 0x0F
    ensures Count12(f[1], f[2]) == on & 0x0FFF
    ensures Count12(f[3], f[4]) == off & 0x0FFF
    ensures on <= FULL_SCALE ==> Count12(f[1], f[2]) == on
    ensures off <= FULL_SCALE ==> Count12(f[3], f[4]) == off
  {
    SplitRoundTrip(on);
    SplitRoundTrip(off);
    [ChannelRegister(ch), LowByte(on), HighNibble(on), LowByte(off), HighNibble(off)]
  }

  /** The "on" count a channel frame programs. */
  function OnCount(f: seq<bv8>): bv16
    requires |f| == FRAME_LENGTH
  {
    Count12(f[1], f[2])
  }

  /** The "off" count a channel frame programs. */
  function OffCount(f: seq<bv8>): bv16
    requires |f| == FRAME_LENGTH
  {
    Count12(f[3], f[4])
  }

  /**
    Two frames are equal exactly when they address the same register and
    program the same twelve-bit counts: nothing else is encoded.
  */
  lemma FrameDeterminedByCounts(ch1: bv8, on1: bv16, off1: bv16, ch2: bv8, on2: bv16, off2: bv16)
    ensures PwmFrame(ch1, on1, off1) == PwmFrame(ch2, on2, off2) <==>
              ChannelRegister(ch1) == ChannelRegister(ch2)
              && on1 & 0x0FFF == on2 & 0x0FFF && off1 & 0x0FFF == off2 & 0x0FFF
  {
    SplitInjective(on1, on2);
    SplitInjective(off1, off2);
    var f1, f2 := PwmFrame(ch1, on1, off1), PwmFrame(ch2, on2, off2);
    assert f1 == [f1[0], f1[1], f1[2], f1[3], f1[4]];
    assert f2 == [f2[0], f2[1], f2[2], f2[3], f2[4]];
  }

  /** Two counts split into the same bytes exactly when their low twelve bits agree. */
  lemma SplitInjective(x: bv16, y: bv16)
    ensures LowByte(x) == LowByte(y) && HighNibble(x) == HighNibble(y) <==> x & 0x0FFF == y & 0x0FFF
  {
  }

  /** An 8-bit unsigned value (`uint8_t`), such as a channel index. */
  type U8 = x: int | 0 <= x < 0x100

  /** A 16-bit unsigned value (`uint16_t`), such as a duty. */
  type U16 = x: int | 0 <= x < 0x1_0000

  /**
    The "off" count `pca9685_setDuty` programs for a requested duty: the
    duty itself, saturated at full scale.
  */
  function DutyOff(duty: U16): (off: U16)
    ensures off <= 4095
    ensures off <= duty
    ensures duty <= 4095 ==> off == duty
    ensures duty >= 4095 ==> off == 4095
  {
    if duty >= 4095 then 4095 else duty
  }

  /**
    The frame `pca9685_setDuty` writes: channel `ch` switches on at count 0
    and off at the saturated duty.
  */
  function DutyFrame(ch: U8, duty: U16): (f: seq<bv8>)
    ensures |f| == FRAME_LENGTH && f[0] == ChannelRegister(ch as bv8)
    ensures OnCount(f) == 0
    ensures OffCount(f) == DutyOff(duty) as bv16
  {
    TwelveBitsFit(DutyOff(duty));
    PwmFrame(ch as bv8, 0, DutyOff(duty) as bv16)
  }

  /** A 12-bit count keeps its bound when it becomes a 16-bit word. */
  lemma TwelveBitsFit(x: int)
    requires 0 <= x <= 4095
    ensures x as bv16 <= FULL_SCALE
  {
  }
}
