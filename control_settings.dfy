/**
 * The control settings the actuator helpers read (ControlSettings). Everything
 * but the current vertical limits is fixed once the settings are loaded; the
 * current vertical limits are switched between two stored sets by the look
 * helper's walk mode.
 */
module Settings {
  import opened ClrArith

  /** A head-turn period whose negation is still a 16-bit value, so both turn directions can be encoded. */
  type Period = x: int | -32767 <= x <= 32767

  /** A strictly positive duration in milliseconds. */
  type Duration = x: int | x > 0 witness 1

  /** The three vertical limits of the head: lowest, forward and highest degree. */
  datatype VerticalLimits = VerticalLimits(minimum: Int16, forward: Int16, maximum: Int16)

  /** Limit set 1 of the defaults (walk mode). */
  const DefaultVerticalLimits1 := VerticalLimits(0, 30, 60)
  /** Limit set 2 of the defaults. */
  const DefaultVerticalLimits2 := VerticalLimits(0, 45, 90)

  class ControlSettings {
    /** SinAlphaBound: below this corrected sine a joystick turn counts as turning on the spot. */
    const sinAlphaBound: real
    const horizontalMinimumDegree: Int16
    const horizontalForwardDegree: Int16
    const horizontalMaximumDegree: Int16
    const verticalLimits1: VerticalLimits
    const verticalLimits2: VerticalLimits
    /** VerticalMinimumDegree, VerticalForwardDegree and VerticalMaximumDegree: the limits in force. */
    var vertical: VerticalLimits
    const verticalReadyToPlayDegree: Int16
    /** GunChargeTime, in milliseconds. */
    const gunChargeTime: Duration
    const reverseHeadTangage: bool
    const driveModeNormalMaxSpeed: Byte
    const driveModeTurboMaxSpeed: Byte
    const speed1: Byte
    const speed2: Byte
    const speed3: Byte
    const speed4: Byte
    const speed5: Byte
    const slowHeadTurnPeriod: Period
    const fastHeadTurnPeriod: Period

    /** The defaults; the current vertical limits start as limit set 1. */
    constructor()
      ensures sinAlphaBound == 0.06
      ensures horizontalMinimumDegree == 0 && horizontalForwardDegree == 90 && horizontalMaximumDegree == 180
      ensures verticalLimits1 == DefaultVerticalLimits1 && verticalLimits2 == DefaultVerticalLimits2
      ensures vertical == verticalLimits1
      ensures verticalReadyToPlayDegree == 50 && gunChargeTime == 5000 && !reverseHeadTangage
      ensures driveModeNormalMaxSpeed == 255 && driveModeTurboMaxSpeed == 255
      ensures speed1 == 51 && speed2 == 102 && speed3 == 153 && speed4 == 204 && speed5 == 255
      ensures slowHeadTurnPeriod == 1000 && fastHeadTurnPeriod == 170
    {
      sinAlphaBound := 0.06;
      horizontalMinimumDegree := 0;
      horizontalForwardDegree := 90;
      horizontalMaximumDegree := 180;
      verticalLimits1 := DefaultVerticalLimits1;
      verticalLimits2 := DefaultVerticalLimits2;
      vertical := DefaultVerticalLimits1;
      verticalReadyToPlayDegree := 50;
      gunChargeTime := 5000;
      reverseHeadTangage := false;
      driveModeNormalMaxSpeed := 255;
      driveModeTurboMaxSpeed := 255;
      speed1 := 51;
      speed2 := 102;
      speed3 := 153;
      speed4 := 204;
      speed5 := 255;
      slowHeadTurnPeriod := 1000;
      fastHeadTurnPeriod := 170;
    }
  }
}
