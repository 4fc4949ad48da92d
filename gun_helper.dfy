/**
 * The gun (GunHelper): a shot is allowed once the gun has recharged, which takes
 * the configured charge time after the previous shot. Time is an explicit
 * argument in milliseconds; `chargeStartTime` is None before the first shot.
 */
module Gun {
  import opened ClrArith
  import opened Communication
  import opened Messages
  import opened Wrappers
  import Settings

  const FireCommand := "s0001"
  const ResetCommand := "s0000"

  /**
   * `Convert.ToByte` of a share below -0.5 throws OverflowException. That
   * happens when the local clock has gone back more than half a percent of
   * the charge time before the last shot.
   */
  datatype ChargeError = ByteOverflow

  /**
   * `GetChargePercent`: 100 before the first shot, otherwise the elapsed share
   * of the charge time in percent, capped at 100 and rounded half to even; a
   * share below -0.5 cannot be converted to a byte.
   */
  function ChargePercent(chargeStartTime: Option<int>, now: int, chargeTime: Settings.Duration): Result<int, ChargeError> {
    match chargeStartTime
    case None => Success(100)
    case Some(start) =>
      var elapsed := now - start;
      if elapsed * 100 > 100 * chargeTime then Success(100)
      else if 200 * elapsed + chargeTime < 0 then Failure(ByteOverflow)
      else Success(RoundHalfEven(elapsed * 100, chargeTime))
  }

  /** Rounding a share between -0.5 and 100 (as n/d) gives a whole percentage between 0 and 100. */
  lemma RoundedPercentRange(n: int, d: int)
    requires d > 0 && 0 <= 2 * n + d && n <= 100 * d
    ensures 0 <= RoundHalfEven(n, d) <= 100
  {
    var r := RoundHalfEven(n, d);
    RoundHalfEvenNearest(n, d);
    assert -d <= 2 * (r * d - n) <= d;
    MulMonotone(-1, r, d);
    MulMonotone(r, -1, d);
    MulMonotone(101, r, d);
    assert -d <= r * d;
    assert r * d == -d ==> 2 * Abs(r * d - n) == d;
    assert r != -1;
  }

  /** A share between -0.5 and 0 rounds to 0. */
  lemma RoundedNegativeShare(n: int, d: int)
    requires d > 0 && 0 <= 2 * n + d && n < 0
    ensures RoundHalfEven(n, d) == 0
  {
    var r := RoundHalfEven(n, d);
    RoundedPercentRange(n, d);
    RoundHalfEvenNearest(n, d);
    MulMonotone(1, r, d);
  }

  /** Whenever the percentage can be computed it is 0..100, so it fits the method's byte result. */
  lemma ChargePercentRange(chargeStartTime: Option<int>, now: int, chargeTime: Settings.Duration)
    ensures var p := ChargePercent(chargeStartTime, now, chargeTime);
      p.Success? ==> 0 <= p.value <= 100
  {
    if chargeStartTime.Some? {
      var elapsed := now - chargeStartTime.value;
      if elapsed * 100 <= 100 * chargeTime && 200 * elapsed + chargeTime >= 0 {
        RoundedPercentRange(elapsed * 100, chargeTime);
      }
    }
  }

  /** The percentage fails exactly when the clock reads more than half a percent of the charge time before the last shot. */
  lemma ChargeOverflowIff(chargeStartTime: Option<int>, now: int, chargeTime: Settings.Duration)
    ensures ChargePercent(chargeStartTime, now, chargeTime).Failure?
        <==> chargeStartTime.Some? && 200 * (now - chargeStartTime.value) + chargeTime < 0
  {
    if chargeStartTime.Some? && 200 * (now - chargeStartTime.value) + chargeTime < 0 {
      assert (now - chargeStartTime.value) * 100 < 0;
    }
  }

  /** A clock that has gone back by at most half a percent of the charge time gives 0. */
  lemma ClockBehind(start: int, now: int, chargeTime: Settings.Duration)
    requires now < start && 200 * (now - start) + chargeTime >= 0
    ensures ChargePercent(Some(start), now, chargeTime) == Success(0)
  {
    RoundedNegativeShare((now - start) * 100, chargeTime);
  }

  /** A share rounds to 100 exactly when it is at least 99.5%. */
  lemma RoundedFullIff(n: int, d: int)
    requires d > 0 && 0 <= n <= 100 * d
    ensures RoundHalfEven(n, d) == 100 <==> 2 * n >= 199 * d
  {
    var r := RoundHalfEven(n, d);
    RoundHalfEvenNearest(n, d);
    assert -d <= 2 * (r * d - n) <= d;
    RoundedPercentRange(n, d);
    MulMonotone(r, 98, d);
    if r == 99 {
      assert r * d == 99 * d;
    } else if r == 100 {
      assert r * d == 100 * d;
    }
  }

  /**
   * The gun counts as charged from 99.5% of the charge time on, because the
   * rounding turns 99.5 into 100: exactly when 200 * elapsed >= 199 * chargeTime.
   */
  lemma ChargedIff(start: int, now: int, chargeTime: Settings.Duration)
    ensures ChargePercent(Some(start), now, chargeTime) == Success(100) <==> 200 * (now - start) >= 199 * chargeTime
  {
    var elapsed := now - start;
    var n := elapsed * 100;
    if elapsed < 0 {
      if 200 * elapsed + chargeTime >= 0 {
        ClockBehind(start, now, chargeTime);
      }
    } else if n <= 100 * chargeTime {
      RoundedFullIff(n, chargeTime);
    }
  }

  /** A shot resets the charge: right after it the percentage is 0. */
  lemma JustFired(now: int, chargeTime: Settings.Duration)
    ensures ChargePercent(Some(now), now, chargeTime) == Success(0)
  {
  }

  /** What a permitted shot sends: the fire command 3·R times, then the reset command 3·R times. */
  function ShotPlan(repetitions: nat): seq<string> {
    Repeat(FireCommand, 3 * repetitions) + Repeat(ResetCommand, 3 * repetitions)
  }

  /** Both gun commands are canonical messages: value 1 fires, value 0 resets. */
  lemma GunCommandsCanonical()
    ensures CorrectMessage(FireCommand) == Success(FireCommand) && ParseMessage(FireCommand) == Success(('s', 1))
    ensures CorrectMessage(ResetCommand) == Success(ResetCommand) && ParseMessage(ResetCommand) == Success(('s', 0))
  {
    LiteralCommand('s', 0, 0, 0, 1);
    LiteralCommand('s', 0, 0, 0, 0);
  }

  /** With no transport failure, a shot logs exactly its plan, fire commands first. */
  lemma ShotLog(c: Channel, fault: FaultOracle, repetitions: nat)
    requires NoFaults(fault, c.attempts, 6 * repetitions)
    ensures SendEach(c, fault, ShotPlan(repetitions)).transmitted == c.transmitted + ShotPlan(repetitions)
  {
    GunCommandsCanonical();
    SendEachTwoRunsNoFault(c, fault, FireCommand, ResetCommand, 3 * repetitions);
  }

  class GunHelper {
    /** None until the first shot; the time of the last shot afterwards. */
    var chargeStartTime: Option<int>
    const communicationHelper: CommunicationHelper
    const controlSettings: Settings.ControlSettings

    constructor(communicationHelper: CommunicationHelper, controlSettings: Settings.ControlSettings)
      ensures this.communicationHelper == communicationHelper && this.controlSettings == controlSettings
      ensures chargeStartTime == None
    {
      this.communicationHelper := communicationHelper;
      this.controlSettings := controlSettings;
      chargeStartTime := None;
    }

    /** `GetChargePercent`, with the clock's reading `now`. */
    method GetChargePercent(now: int) returns (percent: Result<Byte, ChargeError>)
      ensures percent == ChargePercent(chargeStartTime, now, controlSettings.gunChargeTime)
    {
      ChargePercentRange(chargeStartTime, now, controlSettings.gunChargeTime);
      if chargeStartTime.None? {
        return Success(100);
      }
      var elapsed := now - chargeStartTime.value;
      if elapsed * 100 > 100 * controlSettings.gunChargeTime {
        percent := Success(100);
      } else if 200 * elapsed + controlSettings.gunChargeTime < 0 {
        percent := Failure(ByteOverflow);
      } else {
        percent := Success(RoundHalfEven(elapsed * 100, controlSettings.gunChargeTime));
      }
    }

    /** One of the two loops of `Fire`: 3·R sends of one message, ignoring the results. */
    method SendThreeTimesPerRepetition(message: string)
      modifies communicationHelper
      ensures communicationHelper.State()
           == SendEach(old(communicationHelper.State()), communicationHelper.fault, Repeat(message, 3 * communicationHelper.repetitions))
      ensures communicationHelper.repetitions == old(communicationHelper.repetitions)
    {
      var start := communicationHelper.State();
      var fault := communicationHelper.fault;
      for i := 0 to communicationHelper.repetitions
        invariant communicationHelper.repetitions == old(communicationHelper.repetitions)
        invariant communicationHelper.State() == SendEach(start, fault, Repeat(message, 3 * i))
      {
        SendEachRepeat(start, fault, message, 3 * i);
        SendEachRepeat(start, fault, message, 3 * i + 1);
        SendEachRepeat(start, fault, message, 3 * i + 2);
        var _ := communicationHelper.SendMessageToRobot(message);
        var _ := communicationHelper.SendMessageToRobot(message);
        var _ := communicationHelper.SendMessageToRobot(message);
      }
    }

    /**
     * `Fire`. The source reads the clock twice: `now` before the shot, for the
     * charge check, and `restartTime` after the sends, as the new charge start.
     * A failed charge check is the exception escaping `Fire`, before anything
     * is sent. Otherwise nothing happens unless the gun is fully charged.
     */
    method Fire(now: int, restartTime: int) returns (error: Option<ChargeError>)
      modifies this, communicationHelper
      ensures var p := ChargePercent(old(chargeStartTime), now, controlSettings.gunChargeTime);
        error == (if p.Failure? then Some(p.error) else None)
        && if p == Success(100) then
          chargeStartTime == Some(restartTime)
          && communicationHelper.State()
             == SendEach(old(communicationHelper.State()), communicationHelper.fault, ShotPlan(communicationHelper.repetitions))
        else
          chargeStartTime == old(chargeStartTime) && communicationHelper.State() == old(communicationHelper.State())
      ensures communicationHelper.repetitions == old(communicationHelper.repetitions)
    {
      ChargePercentRange(chargeStartTime, now, controlSettings.gunChargeTime);
      var percent := GetChargePercent(now);
      if percent.Failure? {
        return Some(percent.error);
      }
      if percent.value < 100 {
        assert percent != Success(100);
        return None;
      }
      assert percent == Success(100);
      Shoot(restartTime);
      error := None;
    }

    /** The shot itself: the fire and reset commands, then the new charge start. */
    method Shoot(restartTime: int)
      modifies this, communicationHelper
      ensures chargeStartTime == Some(restartTime)
      ensures communicationHelper.State()
           == SendEach(old(communicationHelper.State()), communicationHelper.fault, ShotPlan(communicationHelper.repetitions))
      ensures communicationHelper.repetitions == old(communicationHelper.repetitions)
    {
      var n := 3 * communicationHelper.repetitions;
      SendEachAppend(communicationHelper.State(), communicationHelper.fault, Repeat(FireCommand, n), Repeat(ResetCommand, n));
      SendThreeTimesPerRepetition(FireCommand);
      SendThreeTimesPerRepetition(ResetCommand);
      chargeStartTime := Some(restartTime);
    }
  }
}
