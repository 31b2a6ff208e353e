/**
 * The SSM2518 amplifier's volume and mute registers: a gain in 1/60 dB becomes
 * an inverted 8-bit code, 8 steps per 3 dB with 0x40 at 0 dB.
 */
module Ssm2518 {
  import opened Common

  type Int16 = g: int | -0x8000 <= g < 0x8000

  const GAIN_MIN_MUTE := 0xff
  const GAIN_MAX_24dB := 0x00
  const VOLUME_INTERCEPT_0dB := 0x40
  const GAIN_SCALE_NUMERATOR := 2
  const GAIN_SCALE_DENOMINATOR := 45
  const VOLUME_MIN_MUTE_72DB := -72 * 60

  const M_MUTE: bv8 := 0x01
  const L_MUTE: bv8 := 0x02
  const R_MUTE: bv8 := 0x04

  /** Conversion to int16, division and remainder as C defines them. */
  function ToInt16(x: int): Int16 { (x + 0x8000) % 0x10000 - 0x8000 }

  function TruncDiv(x: int, y: int): int
    requires y > 0
  {
    if x >= 0 then x / y else -((-x) / y)
  }

  function TruncMod(x: int, y: int): int
    requires y > 0
  {
    x - TruncDiv(x, y) * y
  }

  // ----- what the code of a gain means ---------------------------------------

  /** Gains whose doubled negation is an int16. The documented range, -7200 to
      1440 (-120 dB to +24 dB), lies well inside. */
  predicate Fits(gain: int) { -16383 <= gain <= 16384 }

  /** r is -2*gain/45 to the nearest integer, with less than half a step to spare. */
  ghost predicate Nearest(gain: int, r: int) {
    -GAIN_SCALE_DENOMINATOR < 2 * (GAIN_SCALE_DENOMINATOR * r - (-GAIN_SCALE_NUMERATOR * gain)) < GAIN_SCALE_DENOMINATOR
  }

  function Rounded(gain: int): int { (-GAIN_SCALE_NUMERATOR * gain + 22) / GAIN_SCALE_DENOMINATOR }

  /** There are no rounding ties: every gain has exactly one nearest step. */
  lemma {:induction false} NearestIsUnique(gain: int, r: int)
    ensures Nearest(gain, r) <==> r == Rounded(gain)
  {
  }

  function Code(gain: int): (c: Byte) {
    Clamp(VOLUME_INTERCEPT_0dB + Rounded(gain))
  }

  function Clamp(c: int): Byte {
    if c > GAIN_MIN_MUTE then GAIN_MIN_MUTE else if c < GAIN_MAX_24dB then GAIN_MAX_24dB else c
  }

  /** The driver's rounding: truncate, then one step in the noted direction when
      the remainder is at least half the divisor. */
  function RoundAway(x: int, sign: int): int {
    TruncDiv(x, GAIN_SCALE_DENOMINATOR)
    + (if sign * TruncMod(x, GAIN_SCALE_DENOMINATOR) * 2 >= GAIN_SCALE_DENOMINATOR then sign else 0)
  }

  function Doubled(gain: Int16): Int16 { ToInt16(ToInt16(0 - gain) * GAIN_SCALE_NUMERATOR) }

  function Direction(gain: Int16): int { if ToInt16(0 - gain) < 0 then -1 else 1 }

  /** The code the driver writes for a gain. */
  function Written(gain: Int16): Byte {
    Clamp(VOLUME_INTERCEPT_0dB + RoundAway(Doubled(gain), Direction(gain)))
  }

  lemma {:induction false} RoundAwaySmall(x: Int16, sign: int)
    requires sign == 1 || sign == -1
    ensures -GAIN_SCALE_DENOMINATOR < TruncMod(x, GAIN_SCALE_DENOMINATOR) < GAIN_SCALE_DENOMINATOR
    ensures -729 <= TruncDiv(x, GAIN_SCALE_DENOMINATOR) <= 729
    ensures -730 <= RoundAway(x, sign) <= 730
  {
  }

  lemma {:induction false} RoundAwayNearest(x: int)
    ensures RoundAway(x, if x < 0 then -1 else 1) == (x + 22) / GAIN_SCALE_DENOMINATOR
  {
    if x < 0 {
      var q, r := (-x) / 45, (-x) % 45;
      assert -x == 45 * q + r;
    } else {
      var q, r := x / 45, x % 45;
      assert x == 45 * q + r;
    }
  }

  lemma {:induction false} FitsDoubles(gain: Int16)
    ensures Fits(gain) ==> Doubled(gain) == -GAIN_SCALE_NUMERATOR * gain
    ensures Fits(gain) ==> Direction(gain) == (if Doubled(gain) < 0 then -1 else 1)
    ensures gain > 16384 ==> Doubled(gain) >= 0 && Direction(gain) == -1
    ensures gain < -16383 ==> Doubled(gain) <= 0
    ensures -32768 < gain < -16383 ==> Direction(gain) == 1
    ensures gain == -32768 ==> Doubled(gain) == 0
  {
  }

  /** Beyond the int16 range the wrapped gain lands on the wrong side of unity. */
  lemma {:induction false} ScaledIff(gain: Int16)
    ensures Written(gain) == Code(gain) <==> Fits(gain)
  {
    FitsDoubles(gain);
    RoundAwayNearest(Doubled(gain));
  }

  /** The code is 0x40 plus the nearest step, capped to a byte. */
  lemma {:induction false} CodeIsNearestStep(gain: int, r: int)
    requires Nearest(gain, r)
    ensures 0 <= 0x40 + r <= 0xff ==> Code(gain) == 0x40 + r
    ensures 0x40 + r < 0 ==> Code(gain) == 0
    ensures 0x40 + r > 0xff ==> Code(gain) == 0xff
  {
    NearestIsUnique(gain, r);
  }

  /** A louder gain never has a higher (quieter) code. */
  lemma {:induction false} CodeAntitone(soft: int, loud: int)
    requires soft <= loud
    ensures Code(loud) <= Code(soft)
  {
  }

  /** Reference points of the scale: full gain, unity, and the mute threshold. */
  lemma {:induction false} CodeLandmarks(gain: int)
    ensures Code(1440) == GAIN_MAX_24dB && Code(0) == VOLUME_INTERCEPT_0dB
    ensures Code(gain) == GAIN_MIN_MUTE <==> gain <= -4287
  {
  }

  // ----- the registers -------------------------------------------------------

  datatype Channel = Left1 | Left2 | Right1 | Right2 | NoChannel {
    predicate IsLeft() { Left1? || Left2? }
    predicate IsRight() { Right1? || Right2? }
  }

  datatype Registers = Registers(left: Byte, right: Byte, mute: bv8)

  predicate Bit(mute: bv8, bit: bv8) { mute & bit != 0 }

  class Amplifier {
    var left: Byte
    var right: Byte
    var mute: bv8

    ghost function Value(): Registers
      reads this
    {
      Registers(left, right, mute)
    }

    /** Initialisation mutes both channels and the master. */
    constructor (left: Byte, right: Byte)
      ensures Value() == Registers(left, right, M_MUTE | L_MUTE | R_MUTE)
    {
      this.left, this.right, this.mute := left, right, M_MUTE | L_MUTE | R_MUTE;
    }

    /** The code written to a volume register; ScaledIff says when it is the code of
        the gain asked for. */
    method ScaleGain(requested: Int16) returns (code: Byte)
      ensures code == Written(requested)
    {
      var gain: Int16 := ToInt16(0 - requested);
      var sign := 1;
      if gain < 0 { sign := -1; }
      gain := ToInt16(gain * GAIN_SCALE_NUMERATOR);
      gain := DivideRounding(gain, sign);
      code := OffsetAndCap(gain);
    }

    method OffsetAndCap(scaled: Int16) returns (code: Byte)
      requires -730 <= scaled <= 730
      ensures code == Clamp(VOLUME_INTERCEPT_0dB + scaled)
    {
      var gain: Int16 := ToInt16(scaled + VOLUME_INTERCEPT_0dB);
      if gain > GAIN_MIN_MUTE { gain := GAIN_MIN_MUTE; }
      if gain < GAIN_MAX_24dB { gain := GAIN_MAX_24dB; }
      code := gain;
    }

    method DivideRounding(doubled: Int16, sign: int) returns (gain: Int16)
      requires sign == 1 || sign == -1
      ensures gain == RoundAway(doubled, sign) && -730 <= gain <= 730
    {
      RoundAwaySmall(doubled, sign);
      var rest: Int16 := ToInt16(TruncMod(doubled, GAIN_SCALE_DENOMINATOR));
      gain := ToInt16(TruncDiv(doubled, GAIN_SCALE_DENOMINATOR));
      if sign * rest * 2 >= GAIN_SCALE_DENOMINATOR {
        gain := ToInt16(gain + sign);
      }
    }

    method SetChannelGain(channel: Channel, gain: Int16) returns (ok: bool)
      modifies this
      ensures ok == !channel.NoChannel?
      ensures Value() == Set(old(Value()), channel, gain)
    {
      if channel.NoChannel? { return false; }
      var code := ScaleGain(gain);
      var bit := if channel.IsLeft() then L_MUTE else R_MUTE;
      if channel.IsLeft() { left := code; } else { right := code; }
      WriteMute(bit, code);
      return true;
    }

    /** Mutes the channel at the lowest code; otherwise clears its mute and the master's. */
    method WriteMute(bit: bv8, code: Byte)
      modifies this`mute
      ensures mute == Muted(old(mute), bit, code)
    {
      if code == GAIN_MIN_MUTE {
        mute := mute | bit;
      } else {
        mute := mute & !M_MUTE & !bit;
      }
    }

    method SetGain(gain: Int16) returns (ok: bool)
      modifies this
      ensures ok
      ensures Value() == SetBoth(old(Value()), gain)
    {
      var leftOk := SetChannelGain(Left1, gain);
      var rightOk := SetChannelGain(Right1, gain);
      if gain <= VOLUME_MIN_MUTE_72DB {
        mute := mute | M_MUTE;
      }
      ok := leftOk && rightOk;
    }
  }

  function Muted(mute: bv8, bit: bv8, code: Byte): bv8 {
    if code == GAIN_MIN_MUTE then mute | bit else mute & !M_MUTE & !bit
  }

  function Set(r: Registers, channel: Channel, gain: Int16): Registers {
    var c := Written(gain);
    if channel.IsLeft() then r.(left := c, mute := Muted(r.mute, L_MUTE, c))
    else if channel.IsRight() then r.(right := c, mute := Muted(r.mute, R_MUTE, c))
    else r
  }

  function SetBoth(r: Registers, gain: Int16): Registers {
    var s := Set(Set(r, Left1, gain), Right1, gain);
    if gain <= VOLUME_MIN_MUTE_72DB then s.(mute := s.mute | M_MUTE) else s
  }

  // ----- any sequence of calls -----------------------------------------------

  datatype Call = One(channel: Channel, gain: Int16) | Both(gain: Int16)

  function Apply(r: Registers, c: Call): Registers {
    match c
    case One(channel, gain) => Set(r, channel, gain)
    case Both(gain) => SetBoth(r, gain)
  }

  ghost function ApplyAll(r: Registers, calls: seq<Call>): Registers {
    if calls == [] then r else Apply(ApplyAll(r, calls[..|calls| - 1]), calls[|calls| - 1])
  }

  /** The last gain given to the left (right) channel, if any. */
  ghost function LastGain(calls: seq<Call>, leftSide: bool): Option<Int16> {
    if calls == [] then None
    else
      var c := calls[|calls| - 1];
      if c.Both? || (if leftSide then c.channel.IsLeft() else c.channel.IsRight()) then Some(c.gain)
      else LastGain(calls[..|calls| - 1], leftSide)
  }

  /** The register holds what was written for the last gain, which is that gain's
      code exactly if the arithmetic fits, and the mute bit follows it. */
  ghost predicate Holds(code: Byte, muted: bool, last: Option<Int16>) {
    last.Some? ==>
      && code == Written(last.value)
      && (code == Code(last.value) <==> Fits(last.value))
      && (muted <==> code == GAIN_MIN_MUTE)
  }

  /** The left channels of both outputs write the left volume register and bit 1 of the
      mute register, the right ones the right register and bit 2; both outputs share
      the registers, and an unknown channel writes neither. */
  lemma {:induction false} ChannelRegisters(r: Registers, gain: Int16)
    ensures forall c :: c == Left1 || c == Left2 ==>
              Set(r, c, gain).left == Written(gain) && Set(r, c, gain).right == r.right
              && (Set(r, c, gain).mute & 0x02 != 0 <==> Written(gain) == 0xff)
    ensures forall c :: c == Right1 || c == Right2 ==>
              Set(r, c, gain).right == Written(gain) && Set(r, c, gain).left == r.left
              && (Set(r, c, gain).mute & 0x04 != 0 <==> Written(gain) == 0xff)
    ensures Set(r, NoChannel, gain) == r
  {
    MuteBits(r.mute, Written(gain));
  }

  lemma {:induction false} MuteBits(mute: bv8, code: Byte)
    ensures Muted(mute, L_MUTE, code) & 0x02 != 0 <==> code == 0xff
    ensures Muted(mute, R_MUTE, code) & 0x04 != 0 <==> code == 0xff
    ensures code != 0xff ==> Muted(mute, L_MUTE, code) & 0x01 == 0 && Muted(mute, R_MUTE, code) & 0x01 == 0
  {
  }

  /** A call on one channel leaves the other's volume and mute bit alone. */
  lemma {:induction false} ChannelsIndependent(r: Registers, channel: Channel, gain: Int16)
    ensures var s := Set(r, channel, gain);
            && (!channel.IsLeft() ==> s.left == r.left && (Bit(s.mute, L_MUTE) <==> Bit(r.mute, L_MUTE)))
            && (!channel.IsRight() ==> s.right == r.right && (Bit(s.mute, R_MUTE) <==> Bit(r.mute, R_MUTE)))
  {
  }

  lemma {:induction false} ApplyHolds(r: Registers, c: Call)
    ensures var s := Apply(r, c);
            && (c.Both? || c.channel.IsLeft() ==> Holds(s.left, Bit(s.mute, L_MUTE), Some(c.gain)))
            && (c.Both? || c.channel.IsRight() ==> Holds(s.right, Bit(s.mute, R_MUTE), Some(c.gain)))
  {
    ScaledIff(c.gain);
  }

  /** After any sequence of calls each channel already set holds the code of its
      last gain, and its mute bit is set exactly when that code is 0xff. */
  lemma {:induction false} RegistersFollowLastGain(r: Registers, calls: seq<Call>)
    ensures var s := ApplyAll(r, calls);
            && Holds(s.left, Bit(s.mute, L_MUTE), LastGain(calls, true))
            && Holds(s.right, Bit(s.mute, R_MUTE), LastGain(calls, false))
  {
    if calls != [] {
      var before, c := ApplyAll(r, calls[..|calls| - 1]), calls[|calls| - 1];
      RegistersFollowLastGain(r, calls[..|calls| - 1]);
      ApplyHolds(before, c);
      if c.One? { ChannelsIndependent(before, c.channel, c.gain); }
    }
  }

  /** The master mute is never on while a channel is audible. */
  ghost predicate MasterCovered(mute: bv8) {
    Bit(mute, M_MUTE) ==> Bit(mute, L_MUTE) && Bit(mute, R_MUTE)
  }

  lemma {:induction false} SetKeepsMasterCovered(r: Registers, channel: Channel, gain: Int16)
    requires MasterCovered(r.mute)
    ensures MasterCovered(Set(r, channel, gain).mute)
  {
  }

  lemma {:induction false} BothKeepsMasterCovered(r: Registers, gain: Int16)
    requires MasterCovered(r.mute) && Fits(gain)
    ensures MasterCovered(SetBoth(r, gain).mute)
  {
    ScaledIff(gain);
    CodeLandmarks(gain);
    SetKeepsMasterCovered(r, Left1, gain);
    SetKeepsMasterCovered(Set(r, Left1, gain), Right1, gain);
    ApplyHolds(r, Both(gain));
  }

  /** From initialisation, after any sequence of calls the arithmetic can hold, the
      master mute is on only with both channel mutes; so it never silences a
      channel set to be heard. */
  lemma {:induction false} MasterNeverAlone(r: Registers, calls: seq<Call>)
    requires MasterCovered(r.mute) && forall i :: 0 <= i < |calls| ==> Fits(calls[i].gain)
    ensures MasterCovered(ApplyAll(r, calls).mute)
  {
    if calls != [] {
      var before, c := ApplyAll(r, calls[..|calls| - 1]), calls[|calls| - 1];
      MasterNeverAlone(r, calls[..|calls| - 1]);
      if c.One? {
        SetKeepsMasterCovered(before, c.channel, c.gain);
      } else {
        BothKeepsMasterCovered(before, c.gain);
      }
    }
  }

  /** Setting both channels turns the master on at -72 dB and below and off above
      the quietest code; in the band between it is left as it was. */
  lemma {:induction false} MasterAfterBoth(r: Registers, gain: Int16)
    requires Fits(gain)
    ensures Bit(SetBoth(r, gain).mute, M_MUTE)
       <==> gain <= VOLUME_MIN_MUTE_72DB || (gain <= -4287 && Bit(r.mute, M_MUTE))
  {
    ScaledIff(gain);
    CodeLandmarks(gain);
  }
}
