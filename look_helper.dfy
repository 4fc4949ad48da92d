/**
 * The head (LookHelper): two servos, horizontal ('H') and vertical ('V'), driven
 * either by the stick, by a fixed look at given degrees, or by continuous turns
 * ('h' and 'v' with a signed period). A "fixed control" flag per axis says that
 * the axis is held by a fixed look or a turn rather than by the stick.
 *
 * The square root the source takes of x*x + y*y is passed in as `r`; coordinates
 * and degrees are exact reals and integers.
 */
module Look {
  import opened ClrArith
  import opened Communication
  import opened Messages
  import opened Wrappers
  import Settings

  // ---------------------------------------------------------------------------
  // From the circular stick area to the square one

  function Clamp(v: real): (r: real)
    ensures -1.0 <= r <= 1.0
    ensures -1.0 <= v <= 1.0 ==> r == v
  {
    if v < -1.0 then -1.0 else if v > 1.0 then 1.0 else v
  }

  /** A stick position (the pair of `ref float` arguments). */
  datatype Point = Point(x: real, y: real)

  /**
   * `CorrectCoordinatesFromCyrcleToSquareAreaForFirstQuadrant`: the point is pushed
   * out along its ray so that its larger coordinate becomes r, the distance the
   * source computes as `Math.Sqrt(x * x + y * y)`. A point on the vertical axis is
   * left alone; the swap of coordinates for the upper half of the quadrant is
   * written out as the second formula.
   */
  function FirstQuadrant(x: real, y: real, r: real): Point
    requires x >= 0.0 && y >= 0.0
  {
    if x == 0.0 then Point(x, y)
    else if x >= y then Point(r, y * r / x)
    else Point(x * r / y, r)
  }

  /** `CorrectCoordinatesFromCyrcleToSquareArea`: each quadrant is reflected into the first and back, then both coordinates are clamped to [-1, 1]. */
  function CircleToSquare(x: real, y: real, r: real): (p: Point)
    ensures -1.0 <= p.x <= 1.0 && -1.0 <= p.y <= 1.0
  {
    var q :=
      if x >= 0.0 && y >= 0.0 then FirstQuadrant(x, y, r)
      else if x < 0.0 && y >= 0.0 then var q := FirstQuadrant(-x, y, r); Point(-q.x, q.y)
      else if x < 0.0 && y < 0.0 then var q := FirstQuadrant(-x, -y, r); Point(-q.x, -q.y)
      else var q := FirstQuadrant(x, -y, r); Point(q.x, -q.y);
    Point(Clamp(q.x), Clamp(q.y))
  }

  function RealAbs(v: real): real {
    if v < 0.0 then -v else v
  }

  function RealMax(a: real, b: real): real {
    if a >= b then a else b
  }

  // Small facts about real division and scaling the proofs below rely on.

  lemma DivMul(a: real, b: real, c: real)
    requires c != 0.0
    ensures a * b / c == b / c * a
  {
  }

  lemma DivSelf(b: real, c: real)
    requires c != 0.0
    ensures b / c * c == b
  {
  }

  /** In the first quadrant off the vertical axis, the point is scaled by r over its larger coordinate. */
  lemma FirstQuadrantScale(x: real, y: real, r: real)
    requires x > 0.0 && y >= 0.0
    ensures FirstQuadrant(x, y, r) == Point(r / RealMax(x, y) * x, r / RealMax(x, y) * y)
  {
    if x >= y {
      DivMul(y, r, x);
      DivSelf(r, x);
    } else {
      DivMul(x, r, y);
      DivSelf(r, y);
    }
  }

  /** Scaling then reflecting is scaling the signed coordinate. */
  lemma ReflectScaled(s: real, k: real)
    requires k >= 0.0
    ensures Reflect(s, k * RealAbs(s)) == k * s
    ensures RealAbs(k * s) == k * RealAbs(s)
  {
    if s < 0.0 {
      assert k * RealAbs(s) == -(k * s);
    }
  }

  lemma ScaleLeq(k: real, v: real, m: real)
    requires k >= 0.0 && 0.0 <= v <= m
    ensures k * v <= k * m
  {
    assert k * m - k * v == k * (m - v);
  }

  /** Changing the sign of a coordinate, as the reflection from the first quadrant back does. */
  function Reflect(s: real, w: real): real {
    if s < 0.0 then -w else w
  }

  /** Every quadrant is handled as its mirror image in the first one. */
  lemma CircleToSquareReflects(x: real, y: real, r: real)
    ensures var q := FirstQuadrant(RealAbs(x), RealAbs(y), r);
      CircleToSquare(x, y, r) == Point(Clamp(Reflect(x, q.x)), Clamp(Reflect(y, q.y)))
  {
  }

  /** Off the vertical axis the first-quadrant result, reflected back, is the input scaled by k. */
  lemma ReflectedScale(x: real, y: real, r: real)
    requires x != 0.0 && 0.0 <= r
    ensures var k := r / RealMax(RealAbs(x), RealAbs(y));
      var q := FirstQuadrant(RealAbs(x), RealAbs(y), r);
      k >= 0.0 && Reflect(x, q.x) == k * x && Reflect(y, q.y) == k * y
  {
    var m := RealMax(RealAbs(x), RealAbs(y));
    var k := r / m;
    assert m > 0.0;
    FirstQuadrantScale(RealAbs(x), RealAbs(y), r);
    ReflectScaled(x, k);
    ReflectScaled(y, k);
  }

  lemma ScaledWithin(x: real, y: real, r: real, k: real)
    requires k >= 0.0 && RealMax(RealAbs(x), RealAbs(y)) > 0.0 && k * RealMax(RealAbs(x), RealAbs(y)) == r
    ensures RealAbs(k * x) <= r && RealAbs(k * y) <= r && RealMax(RealAbs(k * x), RealAbs(k * y)) == r
  {
    var ax, ay := RealAbs(x), RealAbs(y);
    var m := RealMax(ax, ay);
    ReflectScaled(x, k);
    ReflectScaled(y, k);
    ScaleLeq(k, ax, m);
    ScaleLeq(k, ay, m);
  }

  /** Scaling by k puts the larger coordinate at distance r from the origin and keeps the other within it. */
  lemma ScaledOnSquare(x: real, y: real, r: real)
    requires x != 0.0 && 0.0 <= r
    ensures var k := r / RealMax(RealAbs(x), RealAbs(y));
      RealAbs(k * x) <= r && RealAbs(k * y) <= r && RealMax(RealAbs(k * x), RealAbs(k * y)) == r
  {
    var m := RealMax(RealAbs(x), RealAbs(y));
    assert m > 0.0;
    DivSelf(r, m);
    ScaledWithin(x, y, r, r / m);
  }

  lemma DivPositive(r: real, m: real)
    requires r > 0.0 && m > 0.0
    ensures r / m > 0.0
  {
  }

  /** A positive scale factor keeps the sign. */
  lemma PositiveScaleSign(k: real, v: real)
    requires k > 0.0
    ensures k * v < 0.0 <==> v < 0.0
  {
    if v < 0.0 {
      assert k * v == -(k * -v);
    }
  }

  /** The stick at rest stays at rest. */
  lemma CircleToSquareOrigin()
    ensures CircleToSquare(0.0, 0.0, 0.0) == Point(0.0, 0.0)
  {
  }

  /** On the vertical axis only the clamp acts. */
  lemma CircleToSquareOnAxis(y: real, r: real)
    ensures CircleToSquare(0.0, y, r) == Point(0.0, Clamp(y))
  {
  }

  /** Full deflection along an axis is left as it is. */
  lemma CircleToSquareExamples()
    ensures CircleToSquare(1.0, 0.0, 1.0) == Point(1.0, 0.0)
    ensures CircleToSquare(0.0, 1.0, 1.0) == Point(0.0, 1.0)
    ensures CircleToSquare(-1.0, 0.0, 1.0) == Point(-1.0, 0.0)
  {
  }

  /**
   * The reflections keep each coordinate's sign: a negative input coordinate gives a
   * negative output one and vice versa. Of r the proof needs only what a distance
   * from the origin satisfies: it is never negative, and zero only at the origin.
   */
  lemma CircleToSquareSigns(x: real, y: real, r: real)
    requires r >= 0.0 && (r == 0.0 <==> x == 0.0 && y == 0.0)
    ensures var p := CircleToSquare(x, y, r);
      (p.x < 0.0 <==> x < 0.0) && (p.y < 0.0 <==> y < 0.0)
  {
    CircleToSquareReflects(x, y, r);
    if x != 0.0 {
      var k := r / RealMax(RealAbs(x), RealAbs(y));
      ReflectedScale(x, y, r);
      DivPositive(r, RealMax(RealAbs(x), RealAbs(y)));
      PositiveScaleSign(k, x);
      PositiveScaleSign(k, y);
    }
  }

  /**
   * A point off the vertical axis is moved along its ray, scaled by k = r over its
   * larger coordinate, onto the square whose half-side is r; inside the unit circle
   * the clamp then leaves it there.
   */
  lemma CircleToSquareRadius(x: real, y: real, r: real)
    requires x != 0.0 && 0.0 <= r <= 1.0
    ensures var k := r / RealMax(RealAbs(x), RealAbs(y));
      var p := CircleToSquare(x, y, r);
      k >= 0.0 && p.x == k * x && p.y == k * y
      && RealMax(RealAbs(p.x), RealAbs(p.y)) == r
  {
    CircleToSquareReflects(x, y, r);
    ReflectedScale(x, y, r);
    ScaledOnSquare(x, y, r);
  }

  // ---------------------------------------------------------------------------
  // Degrees and commands

  /** Rounding a real between two integers stays between them. */
  lemma RoundBetween(v: real, a: int, b: int)
    requires Min(a, b) as real <= v <= Max(a, b) as real
    ensures Min(a, b) <= RealRoundHalfEven(v) <= Max(a, b)
  {
    RealRoundWithin(v, Min(a, b), Max(a, b));
  }

  /** Twice C#'s half of a span lies between 0 and the span. */
  lemma HalfSpanBounds(from: int, to: int)
    ensures from <= to ==> 0 <= 2 * TruncDiv(to - from, 2) <= to - from
    ensures to < from ==> to - from <= 2 * TruncDiv(to - from, 2) <= 0
  {
    var t := TruncDiv(to - from, 2);
    assert 2 * Abs(t) <= Abs(to - from);
  }

  lemma ScaledWithinSpan(f: real, from: real, to: real, t: real)
    requires 0.0 <= f <= 2.0
    requires from <= to ==> 0.0 <= 2.0 * t <= to - from
    requires to < from ==> to - from <= 2.0 * t <= 0.0
    ensures from <= to ==> from <= f * t + from <= to
    ensures to < from ==> to <= f * t + from <= from
  {
    if from <= to {
      assert 0.0 <= f * t <= 2.0 * t;
    } else {
      assert 2.0 * t <= f * t <= 0.0;
    }
  }

  /** A factor between 0 and 2 times half the span, added to one end, stays between the ends. */
  lemma ScaledHalfSpan(f: real, from: int, to: int)
    requires 0.0 <= f <= 2.0
    ensures var v := f * (TruncDiv(to - from, 2) as real) + from as real;
      Min(from, to) as real <= v <= Max(from, to) as real
  {
    HalfSpanBounds(from, to);
    ScaledWithinSpan(f, from as real, to as real, TruncDiv(to - from, 2) as real);
  }

  /** `GenerateHorizontalServoCommand`'s degree: (1 - x) times half the horizontal span (integer division) plus the minimum, rounded. */
  function HorizontalDegree(x: real, minimum: Int16, maximum: Int16): (degree: Int16)
    requires -1.0 <= x <= 1.0
    ensures Min(minimum, maximum) <= degree <= Max(minimum, maximum)
  {
    var v := (1.0 - x) * (TruncDiv(maximum - minimum, 2) as real) + minimum as real;
    ScaledHalfSpan(1.0 - x, minimum, maximum);
    RoundBetween(v, minimum, maximum);
    RealRoundHalfEven(v)
  }

  /** `GenerateVerticalServoCommand`'s degree: the same mapping for y + 1, mirrored inside the vertical limits. */
  function VerticalDegree(y: real, limits: Settings.VerticalLimits): (degree: Int16)
    requires -1.0 <= y <= 1.0
    ensures Min(limits.minimum, limits.maximum) <= degree <= Max(limits.minimum, limits.maximum)
  {
    var straight := (y + 1.0) * (TruncDiv(limits.maximum - limits.minimum, 2) as real) + limits.minimum as real;
    var v := limits.minimum as real + limits.maximum as real - straight;
    ScaledHalfSpan(y + 1.0, limits.minimum, limits.maximum);
    RoundBetween(v, limits.minimum, limits.maximum);
    RealRoundHalfEven(v)
  }

  lemma RealRoundOfInt(k: int)
    ensures RealRoundHalfEven(k as real) == k
  {
  }

  /** With the stick centred the head looks half-way across each span: hMin + (hMax - hMin)/2 and vMax - (vMax - vMin)/2. */
  lemma CentredDegrees(hMin: Int16, hMax: Int16, limits: Settings.VerticalLimits)
    ensures HorizontalDegree(0.0, hMin, hMax) == TruncDiv(hMax - hMin, 2) + hMin
    ensures VerticalDegree(0.0, limits) == limits.maximum - TruncDiv(limits.maximum - limits.minimum, 2)
  {
    var t := TruncDiv(hMax - hMin, 2);
    assert (1.0 - 0.0) * (t as real) + hMin as real == (t + hMin) as real;
    RealRoundOfInt(t + hMin);
    var s := TruncDiv(limits.maximum - limits.minimum, 2);
    assert limits.minimum as real + limits.maximum as real - ((0.0 + 1.0) * (s as real) + limits.minimum as real)
        == (limits.maximum - s) as real;
    RealRoundOfInt(limits.maximum - s);
  }

  /** The default limits centre the head on the forward degrees. */
  lemma DefaultCentredIsForward()
    ensures HorizontalDegree(0.0, 0, 180) == 90
    ensures VerticalDegree(0.0, Settings.DefaultVerticalLimits1) == 30
    ensures VerticalDegree(0.0, Settings.DefaultVerticalLimits2) == 45
  {
    CentredDegrees(0, 180, Settings.DefaultVerticalLimits1);
    CentredDegrees(0, 180, Settings.DefaultVerticalLimits2);
  }

  /** A servo command for a degree: the axis letter and `IntToMessageValue(degree)`, which throws outside 16 bits. */
  function ServoCommand(identifier: char, degree: int): (r: Result<string, CodecError>)
    ensures r.Success? <==> -32768 <= degree <= 32767
    ensures r.Failure? ==> r.error == ValueOutOfRange
  {
    var value :- IntToMessageValue(degree);
    Success([identifier] + value)
  }

  /** A servo command in range is the codec's message for the degree, and decodes back to it. */
  lemma ServoCommandDecodes(identifier: char, degree: Int16)
    requires !IsHexDigit(identifier)
    ensures ServoCommand(identifier, degree) == Success(MakeMessage(identifier, degree))
    ensures ParseMessage(MakeMessage(identifier, degree)) == Success((identifier, degree))
    ensures CorrectMessage(MakeMessage(identifier, degree)) == Success(MakeMessage(identifier, degree))
  {
    ParseMakeRoundTrip(identifier, degree);
  }

  /** The period of a horizontal turn: the configured period to the left and its negation to the right. */
  function HorizontalTurnPeriod(toLeft: bool, period: Settings.Period): Settings.Period {
    if toLeft then period else -period
  }

  /** The period of a vertical turn: the period up and its negation down, both flipped when the head's tangage is reversed. */
  function VerticalTurnPeriod(up: bool, period: Settings.Period, reverseHeadTangage: bool): Settings.Period {
    if up != reverseHeadTangage then period else -period
  }

  /** The period in force: fast or slow. */
  function BasePeriod(fastModeOn: bool, slow: Settings.Period, fast: Settings.Period): Settings.Period {
    if fastModeOn then fast else slow
  }

  /** Opposite turns on one axis carry opposite periods, and reversing the tangage swaps up and down. */
  lemma TurnPeriodsOpposite(period: Settings.Period, reverseHeadTangage: bool)
    ensures HorizontalTurnPeriod(false, period) == -HorizontalTurnPeriod(true, period)
    ensures VerticalTurnPeriod(false, period, reverseHeadTangage) == -VerticalTurnPeriod(true, period, reverseHeadTangage)
    ensures VerticalTurnPeriod(true, period, true) == VerticalTurnPeriod(false, period, false)
  {
  }

  /** Turn and stop commands are canonical, decode to their period, and the stops are "h0000" and "v0000". */
  lemma TurnCommandsDecode(period: Settings.Period)
    ensures ParseMessage(MakeMessage('h', period)) == Success(('h', period))
    ensures ParseMessage(MakeMessage('v', period)) == Success(('v', period))
    ensures CorrectMessage(MakeMessage('h', period)) == Success(MakeMessage('h', period))
    ensures CorrectMessage(MakeMessage('v', period)) == Success(MakeMessage('v', period))
    ensures MakeMessage('h', 0) == "h0000" && MakeMessage('v', 0) == "v0000"
  {
    ServoCommandDecodes('h', period);
    ServoCommandDecodes('v', period);
    LiteralCommand('h', 0, 0, 0, 0);
    LiteralCommand('v', 0, 0, 0, 0);
  }

  /** `++value` then `--value` on a short: the second step always comes back. */
  lemma NudgeBack(value: Int16)
    ensures Wrap16(Wrap16(value + 1) - 1) == value
  {
    if value == 32767 {
      assert Wrap16(value + 1) == -32768;
    }
  }

  /** The two messages `LookForward` sends per axis: the value plus one, then the value itself. */
  function NudgePlan(identifier: char, value: Int16): seq<string> {
    [MakeMessage(identifier, Wrap16(value + 1)), MakeMessage(identifier, value)]
  }

  /** The two messages of a nudge always differ, so a receiver that ignores repeated commands still sees the last one. */
  lemma NudgePlanDiffers(identifier: char, value: Int16)
    requires !IsHexDigit(identifier)
    ensures NudgePlan(identifier, value)[0] != NudgePlan(identifier, value)[1]
    ensures ParseMessage(NudgePlan(identifier, value)[1]) == Success((identifier, value))
    ensures CorrectMessage(NudgePlan(identifier, value)[0]) == Success(NudgePlan(identifier, value)[0])
    ensures CorrectMessage(NudgePlan(identifier, value)[1]) == Success(NudgePlan(identifier, value)[1])
  {
    var up := Wrap16(value + 1);
    assert up != value;
    ParseMakeRoundTrip(identifier, up);
    ParseMakeRoundTrip(identifier, value);
    CorrectMessageOfMade(identifier, up);
    CorrectMessageOfMade(identifier, value);
  }

  /** With no transport failure, both messages of a nudge are logged. */
  lemma NudgeLog(c: Channel, fault: FaultOracle, identifier: char, value: Int16)
    requires !IsHexDigit(identifier)
    requires NoFaults(fault, c.attempts, 2)
    ensures SendEach(c, fault, NudgePlan(identifier, value)).transmitted == c.transmitted + NudgePlan(identifier, value)
    ensures SendEach(c, fault, NudgePlan(identifier, value)).attempts == c.attempts + 2
  {
    NudgePlanDiffers(identifier, value);
    SendEachNoFault(c, fault, NudgePlan(identifier, value));
  }

  /** With no transport failure, `LookForward` logs the four nudge messages, horizontal pair first. */
  lemma LookForwardLog(c: Channel, fault: FaultOracle, d: Int16, e: Int16)
    requires NoFaults(fault, c.attempts, 4)
    ensures var next := SendEach(SendEach(c, fault, NudgePlan('H', d)), fault, NudgePlan('V', e));
      next.transmitted == c.transmitted + NudgePlan('H', d) + NudgePlan('V', e)
      && next.attempts == c.attempts + 4
  {
    NoFaultsSplit(fault, c.attempts, 2, 2);
    NudgeLog(c, fault, 'H', d);
    NudgeLog(SendEach(c, fault, NudgePlan('H', d)), fault, 'V', e);
  }

  /** What `FixedLook` does to the channel and the two command fields, and the exception it may throw. */
  function FixedLookSends(c: Channel, fault: FaultOracle, horizontal: string, vertical: string, fixedX: int, fixedY: int)
    : (Channel, string, string, Option<CodecError>)
  {
    match ServoCommand('H', fixedX)
    case Failure(e) => (c, horizontal, vertical, Some(e))
    case Success(h) =>
      var afterH := Send(c, fault, h).0;
      match ServoCommand('V', fixedY)
      case Failure(e) => (afterH, h, vertical, Some(e))
      case Success(v) => (Send(afterH, fault, v).0, h, v, None)
  }

  /** For 16-bit degrees a fixed look sends one H and one V message carrying exactly those degrees. */
  lemma FixedLookInRange(c: Channel, fault: FaultOracle, horizontal: string, vertical: string, fixedX: Int16, fixedY: Int16)
    ensures FixedLookSends(c, fault, horizontal, vertical, fixedX, fixedY)
         == (SendEach(c, fault, [MakeMessage('H', fixedX), MakeMessage('V', fixedY)]),
             MakeMessage('H', fixedX), MakeMessage('V', fixedY), None)
    ensures ParseMessage(MakeMessage('H', fixedX)) == Success(('H', fixedX))
    ensures ParseMessage(MakeMessage('V', fixedY)) == Success(('V', fixedY))
  {
    ServoCommandDecodes('H', fixedX);
    ServoCommandDecodes('V', fixedY);
    var h := MakeMessage('H', fixedX);
    SendEachSnoc(c, fault, [], h);
    SendEachSnoc(c, fault, [h], MakeMessage('V', fixedY));
    assert [h] + [MakeMessage('V', fixedY)] == [h, MakeMessage('V', fixedY)];
    assert [] + [h] == [h];
  }

  /** A horizontal degree outside 16 bits throws before anything is sent. */
  lemma FixedLookOutOfRange(c: Channel, fault: FaultOracle, horizontal: string, vertical: string, fixedX: int, fixedY: int)
    requires !(-32768 <= fixedX <= 32767)
    ensures FixedLookSends(c, fault, horizontal, vertical, fixedX, fixedY) == (c, horizontal, vertical, Some(ValueOutOfRange))
  {
  }

  // ---------------------------------------------------------------------------
  // The object

  class LookHelper {
    var fastModeOn: bool
    var horizontalFixedControl: bool
    var verticalFixedControl: bool
    var lookX: real
    var lookY: real
    var fixedLookX: int
    var fixedLookY: int
    var horizontalServoCommand: string
    var verticalServoCommand: string
    const communicationHelper: CommunicationHelper
    const controlSettings: Settings.ControlSettings

    constructor(communicationHelper: CommunicationHelper, controlSettings: Settings.ControlSettings)
      ensures this.communicationHelper == communicationHelper && this.controlSettings == controlSettings
      ensures !fastModeOn && !horizontalFixedControl && !verticalFixedControl && lookX == 0.0 && lookY == 0.0
      ensures fixedLookX == controlSettings.horizontalForwardDegree && fixedLookY == controlSettings.vertical.forward
      ensures horizontalServoCommand == "" && verticalServoCommand == ""
    {
      this.communicationHelper := communicationHelper;
      this.controlSettings := controlSettings;
      fastModeOn := false;
      horizontalFixedControl := false;
      verticalFixedControl := false;
      lookX := 0.0;
      lookY := 0.0;
      fixedLookX := controlSettings.horizontalForwardDegree;
      fixedLookY := controlSettings.vertical.forward;
      horizontalServoCommand := "";
      verticalServoCommand := "";
    }

    /** The getter of `WalkModeOn`: the forward degree in force is the one of limit set 1. */
    predicate WalkModeOn()
      reads controlSettings
    {
      controlSettings.vertical.forward == controlSettings.verticalLimits1.forward
    }

    /** The setter of `WalkModeOn`: limit set 1 for walking, limit set 2 otherwise. */
    method SetWalkModeOn(value: bool)
      modifies controlSettings
      ensures controlSettings.vertical == if value then controlSettings.verticalLimits1 else controlSettings.verticalLimits2
      ensures value ==> WalkModeOn()
      ensures !value ==> (WalkModeOn() <==> controlSettings.verticalLimits2.forward == controlSettings.verticalLimits1.forward)
    {
      if value {
        controlSettings.vertical := controlSettings.verticalLimits1;
      } else {
        controlSettings.vertical := controlSettings.verticalLimits2;
      }
    }

    /** `FixedLook`: both axes held at the given degrees; the stick position is forgotten. */
    method FixedLook(fixedX: int, fixedY: int) returns (error: Option<CodecError>)
      modifies this, communicationHelper
      ensures horizontalFixedControl && verticalFixedControl
      ensures fixedLookX == fixedX && fixedLookY == fixedY && lookX == 0.0 && lookY == 0.0
      ensures fastModeOn == old(fastModeOn)
      ensures (communicationHelper.State(), horizontalServoCommand, verticalServoCommand, error)
           == FixedLookSends(old(communicationHelper.State()), communicationHelper.fault,
                             old(horizontalServoCommand), old(verticalServoCommand), fixedX, fixedY)
      ensures communicationHelper.repetitions == old(communicationHelper.repetitions)
    {
      horizontalFixedControl := true;
      verticalFixedControl := true;
      fixedLookX := fixedX;
      fixedLookY := fixedY;
      lookX := 0.0;
      lookY := 0.0;
      var h := ServoCommand('H', fixedLookX);
      if h.Failure? {
        return Some(h.error);
      }
      horizontalServoCommand := h.value;
      var _ := communicationHelper.SendMessageToRobot(horizontalServoCommand);
      var v := ServoCommand('V', fixedLookY);
      if v.Failure? {
        return Some(v.error);
      }
      verticalServoCommand := v.value;
      var _ := communicationHelper.SendMessageToRobot(verticalServoCommand);
      error := None;
    }

    /** One axis of `LookForward`'s double send: the command's value plus one, then the value itself. */
    method SendNudged(identifier: char, value: Int16)
      requires !IsHexDigit(identifier)
      modifies communicationHelper
      ensures communicationHelper.State() == SendEach(old(communicationHelper.State()), communicationHelper.fault, NudgePlan(identifier, value))
      ensures communicationHelper.repetitions == old(communicationHelper.repetitions)
    {
      var command := MakeMessage(identifier, value);
      ParseMakeRoundTrip(identifier, value);
      var parsed := ParseMessage(command);
      SendUpAndBack(parsed.value.0, parsed.value.1);
    }

    /** The two sends of a nudge: the value incremented, then decremented back, both with 16-bit wrap-around. */
    method SendUpAndBack(identifier: char, value: Int16)
      modifies communicationHelper
      ensures communicationHelper.State() == SendEach(old(communicationHelper.State()), communicationHelper.fault, NudgePlan(identifier, value))
      ensures communicationHelper.repetitions == old(communicationHelper.repetitions)
    {
      ghost var start := communicationHelper.State();
      var current: Int16 := value;
      current := Wrap16(current + 1);
      var _ := communicationHelper.SendMessageToRobot(MakeMessage(identifier, current));
      NudgeBack(value);
      current := Wrap16(current - 1);
      var _ := communicationHelper.SendMessageToRobot(MakeMessage(identifier, current));
      SendEachPair(start, communicationHelper.fault, MakeMessage(identifier, Wrap16(value + 1)), MakeMessage(identifier, value));
    }

    /** The centred servo degrees: the ones the stick at rest maps to. */
    function CentredDegrees(): (Int16, Int16)
      reads controlSettings
    {
      (HorizontalDegree(0.0, controlSettings.horizontalMinimumDegree, controlSettings.horizontalMaximumDegree),
       VerticalDegree(0.0, controlSettings.vertical))
    }

    /** The sending half of `LookForward`: the horizontal servo nudged to the first degree, then the vertical one to the second. */
    method NudgeTo(d: Int16, e: Int16)
      modifies communicationHelper
      ensures communicationHelper.State()
           == SendEach(SendEach(old(communicationHelper.State()), communicationHelper.fault, NudgePlan('H', d)),
                       communicationHelper.fault, NudgePlan('V', e))
      ensures communicationHelper.repetitions == old(communicationHelper.repetitions)
    {
      SendNudged('H', d);
      SendNudged('V', e);
    }

    /** `LookForward`: the fixed degrees return to forward, the stick to the centre, and each servo is nudged to its centred degree. */
    method LookForward()
      modifies this, communicationHelper
      ensures fixedLookX == controlSettings.horizontalForwardDegree && fixedLookY == controlSettings.vertical.forward
      ensures lookX == 0.0 && lookY == 0.0
      ensures horizontalFixedControl == old(horizontalFixedControl) && verticalFixedControl == old(verticalFixedControl)
      ensures fastModeOn == old(fastModeOn)
      ensures var (d, e) := CentredDegrees();
        horizontalServoCommand == MakeMessage('H', d) && verticalServoCommand == MakeMessage('V', e)
        && communicationHelper.State()
           == SendEach(SendEach(old(communicationHelper.State()), communicationHelper.fault, NudgePlan('H', d)),
                       communicationHelper.fault, NudgePlan('V', e))
      ensures communicationHelper.repetitions == old(communicationHelper.repetitions)
    {
      var (d, e) := CentredDegrees();
      ResetForward(MakeMessage('H', d), MakeMessage('V', e));
      NudgeTo(d, e);
    }

    /** The field updates of `LookForward`, with the servo commands it generates for the centred stick. */
    method ResetForward(horizontal: string, vertical: string)
      modifies this
      ensures fixedLookX == controlSettings.horizontalForwardDegree && fixedLookY == controlSettings.vertical.forward
      ensures lookX == 0.0 && lookY == 0.0
      ensures horizontalServoCommand == horizontal && verticalServoCommand == vertical
      ensures horizontalFixedControl == old(horizontalFixedControl) && verticalFixedControl == old(verticalFixedControl)
      ensures fastModeOn == old(fastModeOn)
    {
      fixedLookX := controlSettings.horizontalForwardDegree;
      fixedLookY := controlSettings.vertical.forward;
      lookX := 0.0;
      lookY := 0.0;
      horizontalServoCommand := horizontal;
      verticalServoCommand := vertical;
    }

    /** The first half of `Look`: an axis held by a fixed look or a turn is released, and its fixed degree reset to forward, once the stick moves. */
    method ReleaseIfMoved(p: Point)
      modifies this
      ensures var moved := p.x != old(lookX) || p.y != old(lookY);
        horizontalFixedControl == (old(horizontalFixedControl) && !moved)
        && verticalFixedControl == (old(verticalFixedControl) && !moved)
        && fixedLookX == (if old(horizontalFixedControl) && moved then controlSettings.horizontalForwardDegree else old(fixedLookX))
        && fixedLookY == (if old(verticalFixedControl) && moved then controlSettings.vertical.forward else old(fixedLookY))
      ensures lookX == old(lookX) && lookY == old(lookY) && fastModeOn == old(fastModeOn)
      ensures horizontalServoCommand == old(horizontalServoCommand) && verticalServoCommand == old(verticalServoCommand)
    {
      if p.x != lookX || p.y != lookY {
        if horizontalFixedControl {
          horizontalFixedControl := false;
          fixedLookX := controlSettings.horizontalForwardDegree;
        }
        if verticalFixedControl {
          verticalFixedControl := false;
          fixedLookY := controlSettings.vertical.forward;
        }
      }
    }

    /** The servo commands for a stick position already on the square. */
    function StickCommands(p: Point): (string, string)
      requires -1.0 <= p.x <= 1.0 && -1.0 <= p.y <= 1.0
      reads controlSettings
    {
      (MakeMessage('H', HorizontalDegree(p.x, controlSettings.horizontalMinimumDegree, controlSettings.horizontalMaximumDegree)),
       MakeMessage('V', VerticalDegree(p.y, controlSettings.vertical)))
    }

    /** The second half of `Look`: when neither axis is held, both servos follow the stick. */
    method FollowStick(p: Point)
      requires -1.0 <= p.x <= 1.0 && -1.0 <= p.y <= 1.0
      modifies this, communicationHelper
      ensures horizontalFixedControl == old(horizontalFixedControl) && verticalFixedControl == old(verticalFixedControl)
      ensures fixedLookX == old(fixedLookX) && fixedLookY == old(fixedLookY) && fastModeOn == old(fastModeOn)
      ensures if !horizontalFixedControl && !verticalFixedControl then
          lookX == p.x && lookY == p.y && (horizontalServoCommand, verticalServoCommand) == StickCommands(p)
          && communicationHelper.State()
             == SendEach(old(communicationHelper.State()), communicationHelper.fault, [StickCommands(p).0, StickCommands(p).1])
        else
          lookX == old(lookX) && lookY == old(lookY)
          && horizontalServoCommand == old(horizontalServoCommand) && verticalServoCommand == old(verticalServoCommand)
          && communicationHelper.State() == old(communicationHelper.State())
      ensures communicationHelper.repetitions == old(communicationHelper.repetitions)
    {
      if !horizontalFixedControl && !verticalFixedControl {
        ghost var start := communicationHelper.State();
        horizontalServoCommand := MakeMessage('H', HorizontalDegree(p.x, controlSettings.horizontalMinimumDegree, controlSettings.horizontalMaximumDegree));
        var _ := communicationHelper.SendMessageToRobot(horizontalServoCommand);
        lookX := p.x;
        verticalServoCommand := MakeMessage('V', VerticalDegree(p.y, controlSettings.vertical));
        var _ := communicationHelper.SendMessageToRobot(verticalServoCommand);
        lookY := p.y;
        SendEachPair(start, communicationHelper.fault, horizontalServoCommand, verticalServoCommand);
      }
    }

    /** `Look`: the stick position, mapped onto the square (y inverted unless the tangage is reversed), takes over both axes as soon as it moves. */
    method Look(x: real, y: real, r: real)
      modifies this, communicationHelper
      ensures var p := CircleToSquare(x, if controlSettings.reverseHeadTangage then y else -y, r);
        var moved := p.x != old(lookX) || p.y != old(lookY);
        horizontalFixedControl == (old(horizontalFixedControl) && !moved)
        && verticalFixedControl == (old(verticalFixedControl) && !moved)
        && fixedLookX == (if old(horizontalFixedControl) && moved then controlSettings.horizontalForwardDegree else old(fixedLookX))
        && fixedLookY == (if old(verticalFixedControl) && moved then controlSettings.vertical.forward else old(fixedLookY))
        && if !horizontalFixedControl && !verticalFixedControl then
             lookX == p.x && lookY == p.y && (horizontalServoCommand, verticalServoCommand) == StickCommands(p)
             && communicationHelper.State()
                == SendEach(old(communicationHelper.State()), communicationHelper.fault, [StickCommands(p).0, StickCommands(p).1])
           else
             lookX == old(lookX) && lookY == old(lookY)
             && horizontalServoCommand == old(horizontalServoCommand) && verticalServoCommand == old(verticalServoCommand)
             && communicationHelper.State() == old(communicationHelper.State())
      ensures fastModeOn == old(fastModeOn)
      ensures communicationHelper.repetitions == old(communicationHelper.repetitions)
    {
      var sy := y;
      if !controlSettings.reverseHeadTangage {
        sy := -y;
      }
      var p := CircleToSquare(x, sy, r);
      ReleaseIfMoved(p);
      FollowStick(p);
    }

    /** The horizontal part shared by the three horizontal turn methods: hold the axis and send an 'h' command with the period. */
    method TurnHorizontally(period: Settings.Period)
      modifies this, communicationHelper
      ensures horizontalFixedControl && lookX == (if old(horizontalFixedControl) then old(lookX) else 0.0)
      ensures horizontalServoCommand == MakeMessage('h', period)
      ensures verticalFixedControl == old(verticalFixedControl) && lookY == old(lookY) && verticalServoCommand == old(verticalServoCommand)
      ensures fixedLookX == old(fixedLookX) && fixedLookY == old(fixedLookY) && fastModeOn == old(fastModeOn)
      ensures communicationHelper.State()
           == SendAll(old(communicationHelper.State()), communicationHelper.fault, Repeat(MakeMessage('h', period), communicationHelper.repetitions)).0
      ensures communicationHelper.repetitions == old(communicationHelper.repetitions)
    {
      if !horizontalFixedControl {
        horizontalFixedControl := true;
        lookX := 0.0;
      }
      var value := IntToMessageValue(period);
      horizontalServoCommand := "h" + value.value;
      var _ := communicationHelper.SendNonrecurrentMessageToRobotWithoutVoid(horizontalServoCommand);
    }

    /** The vertical counterpart of `TurnHorizontally`. */
    method TurnVertically(period: Settings.Period)
      modifies this, communicationHelper
      ensures verticalFixedControl && lookY == (if old(verticalFixedControl) then old(lookY) else 0.0)
      ensures verticalServoCommand == MakeMessage('v', period)
      ensures horizontalFixedControl == old(horizontalFixedControl) && lookX == old(lookX) && horizontalServoCommand == old(horizontalServoCommand)
      ensures fixedLookX == old(fixedLookX) && fixedLookY == old(fixedLookY) && fastModeOn == old(fastModeOn)
      ensures communicationHelper.State()
           == SendAll(old(communicationHelper.State()), communicationHelper.fault, Repeat(MakeMessage('v', period), communicationHelper.repetitions)).0
      ensures communicationHelper.repetitions == old(communicationHelper.repetitions)
    {
      if !verticalFixedControl {
        verticalFixedControl := true;
        lookY := 0.0;
      }
      var value := IntToMessageValue(period);
      verticalServoCommand := "v" + value.value;
      var _ := communicationHelper.SendNonrecurrentMessageToRobotWithoutVoid(verticalServoCommand);
    }

    /** `StartLeftTurn`. */
    method StartLeftTurn()
      modifies this, communicationHelper
      ensures horizontalFixedControl && lookX == (if old(horizontalFixedControl) then old(lookX) else 0.0)
      ensures var period := HorizontalTurnPeriod(true, BasePeriod(fastModeOn, controlSettings.slowHeadTurnPeriod, controlSettings.fastHeadTurnPeriod));
        horizontalServoCommand == MakeMessage('h', period)
        && communicationHelper.State()
           == SendAll(old(communicationHelper.State()), communicationHelper.fault, Repeat(horizontalServoCommand, communicationHelper.repetitions)).0
      ensures verticalFixedControl == old(verticalFixedControl) && lookY == old(lookY) && verticalServoCommand == old(verticalServoCommand)
      ensures fixedLookX == old(fixedLookX) && fixedLookY == old(fixedLookY) && fastModeOn == old(fastModeOn)
      ensures communicationHelper.repetitions == old(communicationHelper.repetitions)
    {
      var period := if fastModeOn then controlSettings.fastHeadTurnPeriod else controlSettings.slowHeadTurnPeriod;
      TurnHorizontally(period);
    }

    /** `StartRightTurn`. */
    method StartRightTurn()
      modifies this, communicationHelper
      ensures horizontalFixedControl && lookX == (if old(horizontalFixedControl) then old(lookX) else 0.0)
      ensures var period := HorizontalTurnPeriod(false, BasePeriod(fastModeOn, controlSettings.slowHeadTurnPeriod, controlSettings.fastHeadTurnPeriod));
        horizontalServoCommand == MakeMessage('h', period)
        && communicationHelper.State()
           == SendAll(old(communicationHelper.State()), communicationHelper.fault, Repeat(horizontalServoCommand, communicationHelper.repetitions)).0
      ensures verticalFixedControl == old(verticalFixedControl) && lookY == old(lookY) && verticalServoCommand == old(verticalServoCommand)
      ensures fixedLookX == old(fixedLookX) && fixedLookY == old(fixedLookY) && fastModeOn == old(fastModeOn)
      ensures communicationHelper.repetitions == old(communicationHelper.repetitions)
    {
      var period := if fastModeOn then -controlSettings.fastHeadTurnPeriod else -controlSettings.slowHeadTurnPeriod;
      TurnHorizontally(period);
    }

    /** `StopHorizontalTurn`. */
    method StopHorizontalTurn()
      modifies this, communicationHelper
      ensures horizontalFixedControl && lookX == (if old(horizontalFixedControl) then old(lookX) else 0.0)
      ensures horizontalServoCommand == MakeMessage('h', 0)
      ensures communicationHelper.State()
           == SendAll(old(communicationHelper.State()), communicationHelper.fault, Repeat(horizontalServoCommand, communicationHelper.repetitions)).0
      ensures verticalFixedControl == old(verticalFixedControl) && lookY == old(lookY) && verticalServoCommand == old(verticalServoCommand)
      ensures fixedLookX == old(fixedLookX) && fixedLookY == old(fixedLookY) && fastModeOn == old(fastModeOn)
      ensures communicationHelper.repetitions == old(communicationHelper.repetitions)
    {
      TurnHorizontally(0);
    }

    /** `StartUpTurn`. */
    method StartUpTurn()
      modifies this, communicationHelper
      ensures verticalFixedControl && lookY == (if old(verticalFixedControl) then old(lookY) else 0.0)
      ensures var period := VerticalTurnPeriod(true, BasePeriod(fastModeOn, controlSettings.slowHeadTurnPeriod, controlSettings.fastHeadTurnPeriod),
                                               controlSettings.reverseHeadTangage);
        verticalServoCommand == MakeMessage('v', period)
        && communicationHelper.State()
           == SendAll(old(communicationHelper.State()), communicationHelper.fault, Repeat(verticalServoCommand, communicationHelper.repetitions)).0
      ensures horizontalFixedControl == old(horizontalFixedControl) && lookX == old(lookX) && horizontalServoCommand == old(horizontalServoCommand)
      ensures fixedLookX == old(fixedLookX) && fixedLookY == old(fixedLookY) && fastModeOn == old(fastModeOn)
      ensures communicationHelper.repetitions == old(communicationHelper.repetitions)
    {
      var period: Settings.Period := if fastModeOn then controlSettings.fastHeadTurnPeriod else controlSettings.slowHeadTurnPeriod;
      if controlSettings.reverseHeadTangage {
        period := -period;
      }
      TurnVertically(period);
    }

    /** `StartDownTurn`. */
    method StartDownTurn()
      modifies this, communicationHelper
      ensures verticalFixedControl && lookY == (if old(verticalFixedControl) then old(lookY) else 0.0)
      ensures var period := VerticalTurnPeriod(false, BasePeriod(fastModeOn, controlSettings.slowHeadTurnPeriod, controlSettings.fastHeadTurnPeriod),
                                               controlSettings.reverseHeadTangage);
        verticalServoCommand == MakeMessage('v', period)
        && communicationHelper.State()
           == SendAll(old(communicationHelper.State()), communicationHelper.fault, Repeat(verticalServoCommand, communicationHelper.repetitions)).0
      ensures horizontalFixedControl == old(horizontalFixedControl) && lookX == old(lookX) && horizontalServoCommand == old(horizontalServoCommand)
      ensures fixedLookX == old(fixedLookX) && fixedLookY == old(fixedLookY) && fastModeOn == old(fastModeOn)
      ensures communicationHelper.repetitions == old(communicationHelper.repetitions)
    {
      var period: Settings.Period := if fastModeOn then -controlSettings.fastHeadTurnPeriod else -controlSettings.slowHeadTurnPeriod;
      if controlSettings.reverseHeadTangage {
        period := -period;
      }
      TurnVertically(period);
    }

    /** `StopVerticalTurn`. */
    method StopVerticalTurn()
      modifies this, communicationHelper
      ensures verticalFixedControl && lookY == (if old(verticalFixedControl) then old(lookY) else 0.0)
      ensures verticalServoCommand == MakeMessage('v', 0)
      ensures communicationHelper.State()
           == SendAll(old(communicationHelper.State()), communicationHelper.fault, Repeat(verticalServoCommand, communicationHelper.repetitions)).0
      ensures horizontalFixedControl == old(horizontalFixedControl) && lookX == old(lookX) && horizontalServoCommand == old(horizontalServoCommand)
      ensures fixedLookX == old(fixedLookX) && fixedLookY == old(fixedLookY) && fastModeOn == old(fastModeOn)
      ensures communicationHelper.repetitions == old(communicationHelper.repetitions)
    {
      TurnVertically(0);
    }
  }
}
