/**
 * The drive motors (DriveHelper). A keyboard state or a joystick position
 * becomes a pair of wheel speeds in -255..255, which are scaled down to the
 * normal or turbo maximum and sent as the messages "L" + hex4(left) and
 * "R" + hex4(right), left first.
 */
module Drive {
  import opened ClrArith
  import opened Communication
  import opened Messages
  import opened Wrappers
  import Settings

  /** The largest wheel speed before scaling. */
  const FullSpeed := 255
  /** The divisor of the inner wheel's speed when the keyboard turns while moving. */
  const SpeedRetarding := 1000

  /** A pair of signed wheel speeds. */
  datatype Wheels = Wheels(left: int, right: int)

  function Negated(w: Wheels): Wheels {
    Wheels(-w.left, -w.right)
  }

  function Swapped(w: Wheels): Wheels {
    Wheels(w.right, w.left)
  }

  /** Both speeds lie in -bound..bound. */
  predicate Within(w: Wheels, bound: int) {
    -bound <= w.left <= bound && -bound <= w.right <= bound
  }

  // ---------------------------------------------------------------------------
  // The square root of the speed correction, on integers

  /** The integer square root, rounded down. */
  function FloorSqrt(n: nat): (k: nat)
    ensures k * k <= n < (k + 1) * (k + 1)
    decreases n
  {
    if n < 4 then (if n == 0 then 0 else 1)
    else
      var s := FloorSqrt(n / 4);
      FloorSqrtStep(n, s);
      if (2 * s + 1) * (2 * s + 1) <= n then 2 * s + 1 else 2 * s
  }

  /** The square root of n / 4, doubled, is the square root of n or one less. */
  lemma FloorSqrtStep(n: nat, s: nat)
    requires s * s <= n / 4 < (s + 1) * (s + 1)
    ensures (2 * s) * (2 * s) <= n < (2 * s + 2) * (2 * s + 2)
  {
    var q := n / 4;
    var sq := s * s;
    var next := (s + 1) * (s + 1);
    assert 4 * q <= n < 4 * q + 4;
    assert (2 * s) * (2 * s) == 4 * sq;
    assert (2 * s + 2) * (2 * s + 2) == 4 * next;
    assert q + 1 <= next;
  }

  /**
   * The integer nearest to the square root of n: sqrt(n) lies strictly within
   * half a unit of it. An integer's square root is never exactly half-way
   * between two integers, so no tie can arise.
   */
  function NearestSqrt(n: nat): (k: nat)
    ensures 4 * n < (2 * k + 1) * (2 * k + 1)
    ensures k > 0 ==> (2 * k - 1) * (2 * k - 1) < 4 * n
  {
    var k := FloorSqrt(n);
    NearestOfFloor(n, k);
    if n > k * k + k then k + 1 else k
  }

  /** Rounding the floor square root up past k * k + k gives the nearest one. */
  lemma NearestOfFloor(n: nat, k: nat)
    requires k * k <= n < (k + 1) * (k + 1)
    ensures n <= k * k + k ==> 4 * n < (2 * k + 1) * (2 * k + 1) && (k > 0 ==> (2 * k - 1) * (2 * k - 1) < 4 * n)
    ensures n > k * k + k ==> 4 * n < (2 * k + 3) * (2 * k + 3) && (2 * k + 1) * (2 * k + 1) < 4 * n
  {
    var sq := k * k;
    assert (k + 1) * (k + 1) == sq + 2 * k + 1;
    assert (2 * k + 1) * (2 * k + 1) == 4 * sq + 4 * k + 1;
    assert (2 * k + 3) * (2 * k + 3) == 4 * sq + 12 * k + 9;
    if k > 0 {
      assert (2 * k - 1) * (2 * k - 1) == 4 * sq - 4 * k + 1;
    }
  }

  /** Any k with those bounds is the nearest square root: the bounds determine it. */
  lemma NearestSqrtUnique(n: nat, k: nat)
    requires 4 * n < (2 * k + 1) * (2 * k + 1)
    requires k > 0 ==> (2 * k - 1) * (2 * k - 1) < 4 * n
    ensures NearestSqrt(n) == k
  {
    var j := NearestSqrt(n);
    if j < k {
      SquareLess(2 * j + 1, 2 * k - 1);
    } else if j > k {
      SquareLess(2 * k + 1, 2 * j - 1);
    }
  }

  lemma SquareLess(a: nat, b: nat)
    requires a <= b
    ensures a * a <= b * b
  {
    MulLeq(a, a, b);
    MulLeq(b, a, b);
  }

  lemma MulLeq(c: nat, a: nat, b: nat)
    requires a <= b
    ensures c * a <= c * b
  {
  }

  /** A larger radicand never has a smaller nearest square root. */
  lemma NearestSqrtMonotone(m: nat, n: nat)
    requires m <= n
    ensures NearestSqrt(m) <= NearestSqrt(n)
  {
    var j, k := NearestSqrt(m), NearestSqrt(n);
    if j > k {
      SquareLess(2 * k + 1, 2 * j - 1);
    }
  }

  // ---------------------------------------------------------------------------
  // NonlinearSpeedCorrection

  /**
   * The radicand of the speed correction, scaled by 255 * 255: with f = |speed| / 255,
   * 255 * sqrt(2f - f * f) is sqrt(|speed| * (510 - |speed|)).
   */
  function CorrectionRadicand(speed: int): int {
    Abs(speed) * (2 * FullSpeed - Abs(speed))
  }

  /**
   * `NonlinearSpeedCorrection`: the speed's magnitude is mapped on the arc
   * f(x) = sqrt(2x - x * x), rounded to the nearest integer, clamped to
   * 0..255 and given the speed's sign. Beyond 510 the square root of a negative
   * number is NaN, which the clamps turn into 0.
   */
  function NonlinearSpeedCorrection(speed: int): (result: int)
    ensures -FullSpeed <= result <= FullSpeed
  {
    var n := CorrectionRadicand(speed);
    var rounded := if n < 0 then 0 else NearestSqrt(n);
    var clamped := if rounded > FullSpeed then FullSpeed else rounded;
    if speed < 0 then -clamped else clamped
  }

  /** The correction depends only on the magnitude, so it is odd. */
  lemma NonlinearOdd(speed: int)
    ensures NonlinearSpeedCorrection(-speed) == -NonlinearSpeedCorrection(speed)
  {
    assert CorrectionRadicand(-speed) == CorrectionRadicand(speed);
  }

  /** The result has the sign of the speed, and is 0 exactly at 0 and from 510 on. */
  lemma NonlinearSign(speed: int)
    ensures NonlinearSpeedCorrection(speed) > 0 <==> 0 < speed < 2 * FullSpeed
    ensures NonlinearSpeedCorrection(speed) < 0 <==> -2 * FullSpeed < speed < 0
  {
    RadicandSign(speed);
    if CorrectionRadicand(speed) >= 0 {
      NearestSqrtPositive(CorrectionRadicand(speed));
    }
  }

  /** The radicand is positive strictly between -510 and 510, except at 0. */
  lemma RadicandSign(speed: int)
    ensures CorrectionRadicand(speed) > 0 <==> 0 < Abs(speed) < 2 * FullSpeed
  {
    var a := Abs(speed);
    if 0 < a < 2 * FullSpeed {
      MulLeq(a, 1, 2 * FullSpeed - a);
    } else if a >= 2 * FullSpeed {
      MulLeq(a, 0, a - 2 * FullSpeed);
    }
  }

  /** Only 0 has the nearest square root 0. */
  lemma NearestSqrtPositive(n: nat)
    ensures NearestSqrt(n) > 0 <==> n > 0
  {
    var k := NearestSqrt(n);
    if k > 0 {
      SquareLess(1, 2 * k - 1);
    }
  }

  /** On 0..255 the radicand is at least the speed squared. */
  lemma RadicandAboveSquare(speed: int)
    requires 0 <= speed <= FullSpeed
    ensures CorrectionRadicand(speed) >= speed * speed
  {
    var sq := speed * speed;
    assert CorrectionRadicand(speed) == sq + 2 * speed * (FullSpeed - speed);
    MulLeq(2 * speed, 0, FullSpeed - speed);
  }

  /** The nearest square root of a number is at least the root of any square below it. */
  lemma NearestSqrtAbove(n: nat, a: nat)
    requires a * a <= n
    ensures a <= NearestSqrt(n)
  {
    var k := NearestSqrt(n);
    if k < a {
      SquareLess(2 * k + 1, 2 * a);
      DoubleSquare(a);
    }
  }

  lemma DoubleSquare(a: int)
    ensures (2 * a) * (2 * a) == 4 * (a * a)
  {
  }

  /** On 0..255 the arc lies above the diagonal: a corrected speed is never slower, and full speed stays full. */
  lemma NonlinearBoosts(speed: int)
    requires 0 <= speed <= FullSpeed
    ensures speed <= NonlinearSpeedCorrection(speed)
    ensures speed == FullSpeed ==> NonlinearSpeedCorrection(speed) == FullSpeed
  {
    RadicandAboveSquare(speed);
    NearestSqrtAbove(CorrectionRadicand(speed), speed);
  }

  /** On 0..255 a faster stick never gives a slower wheel. */
  lemma NonlinearMonotone(a: int, b: int)
    requires 0 <= a <= b <= FullSpeed
    ensures NonlinearSpeedCorrection(a) <= NonlinearSpeedCorrection(b)
  {
    RadicandGrows(a, b);
    NearestSqrtMonotone(CorrectionRadicand(a), CorrectionRadicand(b));
  }

  /** On 0..255 the radicand is not negative and grows with the speed. */
  lemma RadicandGrows(a: nat, b: nat)
    requires a <= b <= FullSpeed
    ensures 0 <= CorrectionRadicand(a) <= CorrectionRadicand(b)
  {
    MulLeq(a, 0, 2 * FullSpeed - a);
    ProductDifference(a, b);
    MulLeq(b - a, 0, 2 * FullSpeed - a - b);
  }

  lemma ProductDifference(a: nat, b: nat)
    requires a <= b
    ensures b * (2 * FullSpeed - b) - a * (2 * FullSpeed - a) == (b - a) * (2 * FullSpeed - a - b)
  {
    var d := b - a;
    assert b * (2 * FullSpeed - b) == (a + d) * (2 * FullSpeed - a - d);
  }

  /** Half a stick, 128 after rounding, becomes 221 (0xDD). */
  lemma NonlinearHalfStick()
    ensures NonlinearSpeedCorrection(128) == 221
    ensures NonlinearSpeedCorrection(-128) == -221
  {
    assert CorrectionRadicand(128) == 48896;
    NearestSqrtUnique(48896, 221);
  }

  // ---------------------------------------------------------------------------
  // Turbo scaling

  /** `CorrectMotorsSpeedForTurboMode` on one wheel: v * coef / 255 with C#'s truncating division. */
  function TurboScale(speed: int, coef: Byte): (scaled: int) {
    TruncDiv(speed * coef, FullSpeed)
  }

  function ScaledWheels(w: Wheels, coef: Byte): Wheels {
    Wheels(TurboScale(w.left, coef), TurboScale(w.right, coef))
  }

  /** A speed of at most 255 is scaled to at most the cap, keeps its sign, and a cap of 255 changes nothing. */
  lemma TurboScaleBounds(speed: int, coef: Byte)
    requires -FullSpeed <= speed <= FullSpeed
    ensures -(coef as int) <= TurboScale(speed, coef) <= coef
    ensures TurboScale(speed, coef) > 0 ==> speed > 0
    ensures TurboScale(speed, coef) < 0 ==> speed < 0
    ensures coef == FullSpeed ==> TurboScale(speed, coef) == speed
  {
    var p := Abs(speed) * coef;
    MulLeq(coef, Abs(speed), FullSpeed);
    assert Abs(speed * coef) == p;
    assert p / FullSpeed <= coef;
    if coef == FullSpeed {
      assert p / FullSpeed == Abs(speed);
    }
  }

  /** Scaling is odd as well. */
  lemma TurboScaleOdd(speed: int, coef: Byte)
    ensures TurboScale(-speed, coef) == -TurboScale(speed, coef)
  {
    assert -speed * coef == -(speed * coef);
    TruncDivNeg(speed * coef, FullSpeed);
  }

  // ---------------------------------------------------------------------------
  // The keyboard

  /** The keyboard branch of `CalculateMotorsSpeed` before scaling; s is the keyboard speed. */
  function KeyboardWheels(forward: bool, backward: bool, left: bool, right: bool, s: Byte): Wheels {
    var v: int := s;
    if forward then
      if left && right then Wheels(v, v)
      else if left then Wheels(TruncDiv(v, SpeedRetarding), v)
      else if right then Wheels(v, TruncDiv(v, SpeedRetarding))
      else if backward then Wheels(0, 0)
      else Wheels(v, v)
    else if backward then
      if left && right then Wheels(-v, -v)
      else if left then Wheels(TruncDiv(-v, SpeedRetarding), -v)
      else if right then Wheels(-v, TruncDiv(-v, SpeedRetarding))
      else Wheels(-v, -v)
    else if left then
      if right then Wheels(0, 0) else Wheels(-v, v)
    else if right then Wheels(v, -v)
    else Wheels(0, 0)
  }

  /** The keyboard table: what each combination of keys does. */
  lemma KeyboardTable(s: Byte)
    ensures KeyboardWheels(false, false, false, false, s) == Wheels(0, 0)
    ensures KeyboardWheels(true, false, false, false, s) == Wheels(s, s)
    ensures KeyboardWheels(false, true, false, false, s) == Wheels(-(s as int), -(s as int))
    ensures KeyboardWheels(false, false, true, false, s) == Wheels(-(s as int), s)
    ensures KeyboardWheels(false, false, false, true, s) == Wheels(s, -(s as int))
    ensures KeyboardWheels(false, false, true, true, s) == Wheels(0, 0)
    ensures KeyboardWheels(true, true, false, false, s) == Wheels(0, 0)
    ensures KeyboardWheels(true, false, true, false, s) == Wheels(0, s)
    ensures KeyboardWheels(true, false, false, true, s) == Wheels(s, 0)
    ensures KeyboardWheels(true, false, true, true, s) == Wheels(s, s)
  {
  }

  /** Forward wins over backward as soon as a turn key is down. */
  lemma KeyboardForwardPrecedence(backward: bool, left: bool, right: bool, s: Byte)
    requires left || right
    ensures KeyboardWheels(true, backward, left, right, s) == KeyboardWheels(true, !backward, left, right, s)
  {
  }

  /** Exchanging the turn keys exchanges the wheels. */
  lemma KeyboardMirror(forward: bool, backward: bool, left: bool, right: bool, s: Byte)
    ensures KeyboardWheels(forward, backward, right, left, s) == Swapped(KeyboardWheels(forward, backward, left, right, s))
  {
  }

  /** Backward is forward reversed, whatever the turn keys. */
  lemma KeyboardReverse(left: bool, right: bool, s: Byte)
    ensures KeyboardWheels(false, true, left, right, s) == Negated(KeyboardWheels(true, false, left, right, s))
  {
    assert TruncDiv(s, SpeedRetarding) == 0 && TruncDiv(-(s as int), SpeedRetarding) == 0;
  }

  /** The keyboard's speeds never exceed the keyboard speed. */
  lemma KeyboardWithin(forward: bool, backward: bool, left: bool, right: bool, s: Byte)
    ensures Within(KeyboardWheels(forward, backward, left, right, s), s)
  {
    assert TruncDiv(s, SpeedRetarding) == 0 && TruncDiv(-(s as int), SpeedRetarding) == 0;
  }

  /** The keyboard form of `CalculateMotorsSpeed`: the table, scaled for the drive mode. */
  function KeyboardMotorSpeeds(forward: bool, backward: bool, left: bool, right: bool, s: Byte, coef: Byte): (w: Wheels)
    ensures Within(w, coef)
  {
    var raw := KeyboardWheels(forward, backward, left, right, s);
    KeyboardWithin(forward, backward, left, right, s);
    TurboScaleBounds(raw.left, coef);
    TurboScaleBounds(raw.right, coef);
    ScaledWheels(raw, coef)
  }

  // ---------------------------------------------------------------------------
  // The joystick

  function Clamp01(v: real): (c: real)
    ensures 0.0 <= c <= 1.0
    ensures 0.0 <= v <= 1.0 ==> c == v
  {
    if v < 0.0 then 0.0 else if v > 1.0 then 1.0 else v
  }

  /** v times a span lies between 0 and the span. */
  lemma ScaleSpan(v: real, span: real)
    requires 0.0 <= v <= 1.0
    ensures span >= 0.0 ==> 0.0 <= v * span <= span
    ensures span < 0.0 ==> span <= v * span <= 0.0
  {
    if span >= 0.0 {
      assert v * span <= 1.0 * span;
    } else {
      assert v * (-span) <= 1.0 * (-span);
    }
  }

  /** Moving from lo towards hi by a fraction of the way stays between the two. */
  lemma LinearWithin(v: real, lo: int, hi: int)
    requires 0.0 <= v <= 1.0
    ensures Min(lo, hi) as real <= lo as real + v * (hi - lo) as real <= Max(lo, hi) as real
  {
    ScaleSpan(v, (hi - lo) as real);
  }

  /** `Map`: the value, clamped to 0..1, mapped linearly onto minResult..maxResult and rounded by `Convert.ToInt32`. */
  function Map(value: real, minResult: int, maxResult: int): (r: int)
    ensures Min(minResult, maxResult) <= r <= Max(minResult, maxResult)
  {
    var v := Clamp01(value);
    var x := minResult as real + v * (maxResult - minResult) as real;
    LinearWithin(v, minResult, maxResult);
    RealRoundWithin(x, Min(minResult, maxResult), Max(minResult, maxResult));
    RealRoundHalfEven(x)
  }

  /**
   * The quadrant logic of the joystick form of `CalculateMotorsSpeed`, before
   * the corrections. `length` is the stick's distance from the centre and
   * `turn` the doubly corrected sine of its angle; both are clamped to 0..1 as
   * the source does. The quadrant picks the outer wheel, which gets the length,
   * and the inner wheel gets the length times the sine, or the outer wheel's
   * speed reversed when `reverseInner` holds.
   */
  function StickWheels(x: real, y: real, length: real, turn: real, reverseInner: bool): (w: Wheels)
    ensures Within(w, FullSpeed)
  {
    var len := Clamp01(length);
    var inner := Clamp01(turn) * len;
    if x >= 0.0 && y >= 0.0 then
      var left := Map(len, 0, FullSpeed);
      Wheels(left, if reverseInner then -left else Map(inner, 0, FullSpeed))
    else if x < 0.0 && y >= 0.0 then
      var right := Map(len, 0, FullSpeed);
      Wheels(if reverseInner then -right else Map(inner, 0, FullSpeed), right)
    else if x < 0.0 && y < 0.0 then
      var right := Map(len, 0, -FullSpeed);
      Wheels(if reverseInner then -right else Map(inner, 0, -FullSpeed), right)
    else
      var left := Map(len, 0, -FullSpeed);
      Wheels(left, if reverseInner then -left else Map(inner, 0, -FullSpeed))
  }

  /** The two nonlinear corrections and the scaling, applied to both wheels. */
  function CorrectedWheels(w: Wheels, coef: Byte): (r: Wheels)
    requires Within(w, FullSpeed)
    ensures Within(r, coef)
  {
    var c := Wheels(NonlinearSpeedCorrection(w.left), NonlinearSpeedCorrection(w.right));
    TurboScaleBounds(c.left, coef);
    TurboScaleBounds(c.right, coef);
    ScaledWheels(c, coef)
  }

  /**
   * The joystick form of `CalculateMotorsSpeed` as written: the inner wheel
   * is reversed whenever rotation mode is on, because the branches read the
   * field rather than the local flag that also asks for a small angle.
   */
  function StickMotorSpeedsAsWritten(x: real, y: real, length: real, turn: real, rotationModeOn: bool, coef: Byte): (w: Wheels)
    ensures Within(w, coef)
  {
    CorrectedWheels(StickWheels(x, y, length, turn, rotationModeOn), coef)
  }

  /** The joystick form of `CalculateMotorsSpeed` as intended: the inner wheel is reversed only for a small angle. */
  function StickMotorSpeeds(x: real, y: real, length: real, turn: real, rotationModeOn: bool, sinAlphaBound: real, coef: Byte): (w: Wheels)
    ensures Within(w, coef)
  {
    CorrectedWheels(StickWheels(x, y, length, turn, rotationModeOn && Clamp01(turn) < sinAlphaBound), coef)
  }

  /** A reversed inner wheel stays exactly opposite to the outer one through both corrections. */
  lemma ReversedStaysOpposite(x: real, y: real, length: real, turn: real, coef: Byte)
    ensures var w := CorrectedWheels(StickWheels(x, y, length, turn, true), coef);
      w.left == -w.right
  {
    StickReversed(x, y, length, turn);
    CorrectedOpposite(StickWheels(x, y, length, turn, true), coef);
  }

  lemma StickReversed(x: real, y: real, length: real, turn: real)
    ensures StickWheels(x, y, length, turn, true).left == -StickWheels(x, y, length, turn, true).right
  {
  }

  lemma CorrectedOpposite(w: Wheels, coef: Byte)
    requires Within(w, FullSpeed) && w.left == -w.right
    ensures CorrectedWheels(w, coef).left == -CorrectedWheels(w, coef).right
  {
    NonlinearOdd(w.right);
    TurboScaleOdd(NonlinearSpeedCorrection(w.right), coef);
  }

  /** Without reversal both wheels turn the same way: forwards for a stick in the upper half, backwards in the lower. */
  lemma UnreversedSameDirection(x: real, y: real, length: real, turn: real, coef: Byte)
    ensures var w := CorrectedWheels(StickWheels(x, y, length, turn, false), coef);
      (y >= 0.0 ==> w.left >= 0 && w.right >= 0) && (y < 0.0 ==> w.left <= 0 && w.right <= 0)
  {
    var raw := StickWheels(x, y, length, turn, false);
    NonlinearSign(raw.left);
    NonlinearSign(raw.right);
    var c := Wheels(NonlinearSpeedCorrection(raw.left), NonlinearSpeedCorrection(raw.right));
    TurboScaleBounds(c.left, coef);
    TurboScaleBounds(c.right, coef);
  }

  /**
   * The joystick form as written, in both modes: with rotation mode on the
   * wheels always turn against each other; with it off both wheels follow the
   * stick's y direction.
   */
  lemma StickAsWrittenDirections(x: real, y: real, length: real, turn: real, rotationModeOn: bool, coef: Byte)
    ensures var w := StickMotorSpeedsAsWritten(x, y, length, turn, rotationModeOn, coef);
      (rotationModeOn ==> w.left == -w.right)
      && (!rotationModeOn ==> (y >= 0.0 ==> w.left >= 0 && w.right >= 0) && (y < 0.0 ==> w.left <= 0 && w.right <= 0))
  {
    if rotationModeOn {
      ReversedStaysOpposite(x, y, length, turn, coef);
    } else {
      UnreversedSameDirection(x, y, length, turn, coef);
    }
  }

  /** The code as written and the corrected gate agree whenever the gate is open or rotation mode is off. */
  lemma AsWrittenAgreesWithGate(x: real, y: real, length: real, turn: real, rotationModeOn: bool, sinAlphaBound: real, coef: Byte)
    requires !rotationModeOn || Clamp01(turn) < sinAlphaBound
    ensures StickMotorSpeedsAsWritten(x, y, length, turn, rotationModeOn, coef) == StickMotorSpeeds(x, y, length, turn, rotationModeOn, sinAlphaBound, coef)
  {
  }

  /** As written, rotation mode always gives opposite wheels. */
  lemma RotationAsWritten(x: real, y: real, length: real, turn: real, coef: Byte)
    ensures var w := StickMotorSpeedsAsWritten(x, y, length, turn, true, coef);
      w.left == -w.right
  {
    ReversedStaysOpposite(x, y, length, turn, coef);
  }

  /** As intended, rotation mode gives opposite wheels for a small angle and same-direction wheels otherwise. */
  lemma RotationGated(x: real, y: real, length: real, turn: real, rotationModeOn: bool, sinAlphaBound: real, coef: Byte)
    ensures var w := StickMotorSpeeds(x, y, length, turn, rotationModeOn, sinAlphaBound, coef);
      (rotationModeOn && Clamp01(turn) < sinAlphaBound ==> w.left == -w.right)
      && (!(rotationModeOn && Clamp01(turn) < sinAlphaBound) ==>
            (y >= 0.0 ==> w.left >= 0 && w.right >= 0) && (y < 0.0 ==> w.left <= 0 && w.right <= 0))
  {
    if rotationModeOn && Clamp01(turn) < sinAlphaBound {
      ReversedStaysOpposite(x, y, length, turn, coef);
    } else {
      UnreversedSameDirection(x, y, length, turn, coef);
    }
  }

  /**
   * The input that tells the two apart: rotation mode on and the stick pushed
   * fully forward. As written the robot spins on the spot; as intended it drives
   * straight ahead at full speed.
   */
  lemma RotationStraightAhead()
    ensures StickMotorSpeedsAsWritten(0.0, 1.0, 1.0, 1.0, true, 255) == Wheels(255, -255)
    ensures StickMotorSpeeds(0.0, 1.0, 1.0, 1.0, true, 0.06, 255) == Wheels(255, 255)
  {
    assert Map(1.0, 0, FullSpeed) == 255;
    assert StickWheels(0.0, 1.0, 1.0, 1.0, true) == Wheels(255, -255);
    assert StickWheels(0.0, 1.0, 1.0, 1.0, false) == Wheels(255, 255);
    FullStick(255);
  }

  /** A full-speed pair of wheels, either way round, passes both corrections unchanged under the cap 255. */
  lemma FullStick(speed: int)
    requires speed == FullSpeed
    ensures CorrectedWheels(Wheels(speed, -speed), 255) == Wheels(speed, -speed)
    ensures CorrectedWheels(Wheels(speed, speed), 255) == Wheels(speed, speed)
  {
    NonlinearBoosts(speed);
    NonlinearOdd(speed);
    TurboScaleBounds(speed, 255);
    TurboScaleBounds(-speed, 255);
  }

  /** Half the stick straight forward, with the turbo cap 255, gives 221 on both wheels; straight back gives -221. */
  lemma HalfStickExample()
    ensures StickMotorSpeedsAsWritten(0.0, 0.5, 0.5, 1.0, false, 255) == Wheels(221, 221)
    ensures StickMotorSpeedsAsWritten(0.0, -0.5, 0.5, 1.0, false, 255) == Wheels(-221, -221)
  {
    assert Map(0.5, 0, FullSpeed) == 128;
    assert Map(0.5, 0, -FullSpeed) == -128;
    NonlinearHalfStick();
    TurboScaleBounds(221, 255);
    TurboScaleBounds(-221, 255);
  }

  /** Full speed either way passes the correction unchanged, and so does standing still. */
  lemma NonlinearFull()
    ensures NonlinearSpeedCorrection(255) == 255 && NonlinearSpeedCorrection(-255) == -255
    ensures NonlinearSpeedCorrection(0) == 0
  {
    NonlinearBoosts(255);
    NonlinearOdd(255);
  }

  /** The corrections of a full stick, under any cap. */
  lemma CorrectedFull(coef: Byte)
    ensures CorrectedWheels(Wheels(255, 255), coef) == Wheels(TurboScale(255, coef), TurboScale(255, coef))
    ensures CorrectedWheels(Wheels(255, -255), coef) == Wheels(TurboScale(255, coef), TurboScale(-255, coef))
    ensures CorrectedWheels(Wheels(255, 0), coef) == Wheels(TurboScale(255, coef), TurboScale(0, coef))
  {
    NonlinearFull();
  }

  /** The corrections of a half stick, under any cap. */
  lemma CorrectedHalf(coef: Byte)
    ensures CorrectedWheels(Wheels(128, 128), coef) == Wheels(TurboScale(221, coef), TurboScale(221, coef))
    ensures CorrectedWheels(Wheels(-128, -128), coef) == Wheels(TurboScale(-221, coef), TurboScale(-221, coef))
    ensures CorrectedWheels(Wheels(128, -128), coef) == Wheels(TurboScale(221, coef), TurboScale(-221, coef))
  {
    NonlinearHalfStick();
  }

  /** The normal cap 190 applied to the full and the half corrected speeds. */
  lemma NormalCapValues()
    ensures TurboScale(255, 190) == 190 && TurboScale(221, 190) == 164 && TurboScale(-221, 190) == -164
  {
  }

  /** The turbo cap 255 applied to the same speeds. */
  lemma TurboCapValues()
    ensures TurboScale(255, 255) == 255 && TurboScale(-255, 255) == -255 && TurboScale(0, 255) == 0
    ensures TurboScale(221, 255) == 221 && TurboScale(-221, 255) == -221
  {
  }

  lemma NormalFullForward()
    ensures StickMotorSpeedsAsWritten(0.0, 1.0, 1.0, 1.0, false, 190) == Wheels(190, 190)
  {
    assert Map(1.0, 0, FullSpeed) == 255;
    assert StickWheels(0.0, 1.0, 1.0, 1.0, false) == Wheels(255, 255);
    CorrectedFull(190);
    NormalCapValues();
  }

  lemma NormalHalfForward()
    ensures StickMotorSpeedsAsWritten(0.0, 0.5, 0.5, 1.0, false, 190) == Wheels(164, 164)
  {
    assert Map(0.5, 0, FullSpeed) == 128;
    assert StickWheels(0.0, 0.5, 0.5, 1.0, false) == Wheels(128, 128);
    CorrectedHalf(190);
    NormalCapValues();
  }

  lemma NormalHalfBackward()
    ensures StickMotorSpeedsAsWritten(0.0, -0.5, 0.5, 1.0, false, 190) == Wheels(-164, -164)
  {
    assert Map(0.5, 0, -FullSpeed) == -128;
    assert StickWheels(0.0, -0.5, 0.5, 1.0, false) == Wheels(-128, -128);
    CorrectedHalf(190);
    NormalCapValues();
  }

  /** With the normal cap 190, full forward gives 190 (0xBE) and half forward 221 * 190 / 255 = 164 (0xA4) on both wheels. */
  lemma NormalModeExample()
    ensures StickMotorSpeedsAsWritten(0.0, 1.0, 1.0, 1.0, false, 190) == Wheels(190, 190)
    ensures StickMotorSpeedsAsWritten(0.0, 0.5, 0.5, 1.0, false, 190) == Wheels(164, 164)
    ensures StickMotorSpeedsAsWritten(0.0, -0.5, 0.5, 1.0, false, 190) == Wheels(-164, -164)
  {
    NormalFullForward();
    NormalHalfForward();
    NormalHalfBackward();
  }

  /** Sideways with rotation mode on, where the sine is 0, the wheels turn against each other: 255 and -255, or 221 and -221 at half stick. */
  lemma SidewaysRotationExample()
    ensures StickMotorSpeedsAsWritten(1.0, 0.0, 1.0, 0.0, true, 255) == Wheels(255, -255)
    ensures StickMotorSpeedsAsWritten(0.5, 0.0, 0.5, 0.0, true, 255) == Wheels(221, -221)
    ensures StickMotorSpeedsAsWritten(1.0, 0.0, 1.0, 0.0, false, 255) == Wheels(255, 0)
  {
    assert Map(1.0, 0, FullSpeed) == 255;
    assert Map(0.5, 0, FullSpeed) == 128;
    assert Map(0.0, 0, FullSpeed) == 0;
    assert StickWheels(1.0, 0.0, 1.0, 0.0, true) == Wheels(255, -255);
    assert StickWheels(0.5, 0.0, 0.5, 0.0, true) == Wheels(128, -128);
    assert StickWheels(1.0, 0.0, 1.0, 0.0, false) == Wheels(255, 0);
    CorrectedFull(255);
    CorrectedHalf(255);
    TurboCapValues();
  }

  /** At the centre both wheels stand still. */
  lemma StickCentre(turn: real, rotationModeOn: bool, coef: Byte)
    ensures StickMotorSpeedsAsWritten(0.0, 0.0, 0.0, turn, rotationModeOn, coef) == Wheels(0, 0)
  {
    assert Map(0.0, 0, FullSpeed) == 0;
    assert Clamp01(turn) * 0.0 == 0.0;
    assert NonlinearSpeedCorrection(0) == 0;
  }

  // ---------------------------------------------------------------------------
  // Motor commands

  /** `SpeedToMotorCommand`: the motor's letter and the speed's four hex digits. */
  function MotorCommand(motor: char, speed: int): Result<string, CodecError> {
    match IntToMessageValue(speed)
    case Failure(e) => Failure(e)
    case Success(value) => Success([motor] + value)
  }

  /** `GenerateMotorCommands`: the left command, then the right one. */
  function GenerateMotorCommands(w: Wheels): Result<(string, string), CodecError> {
    match MotorCommand('L', w.left)
    case Failure(e) => Failure(e)
    case Success(leftCommand) =>
      match MotorCommand('R', w.right)
      case Failure(e) => Failure(e)
      case Success(rightCommand) => Success((leftCommand, rightCommand))
  }

  /** For 16-bit speeds the commands are the canonical L and R messages, and they decode to the speeds. */
  lemma MotorCommandsDecode(w: Wheels)
    requires Within(w, FullSpeed)
    ensures GenerateMotorCommands(w) == Success((MakeMessage('L', w.left), MakeMessage('R', w.right)))
    ensures ParseMessage(MakeMessage('L', w.left)) == Success(('L', w.left))
    ensures ParseMessage(MakeMessage('R', w.right)) == Success(('R', w.right))
    ensures CorrectMessage(MakeMessage('L', w.left)) == Success(MakeMessage('L', w.left))
    ensures CorrectMessage(MakeMessage('R', w.right)) == Success(MakeMessage('R', w.right))
  {
    ParseMakeRoundTrip('L', w.left);
    ParseMakeRoundTrip('R', w.right);
    CorrectMessageOfMade('L', w.left);
    CorrectMessageOfMade('R', w.right);
  }

  /** A speed outside 16 bits is refused before any command is built. */
  lemma MotorCommandOutOfRange(w: Wheels)
    requires !(-32768 <= w.left <= 32767)
    ensures GenerateMotorCommands(w) == Failure(ValueOutOfRange)
  {
  }

  /** `GenerateStopMotorCommands`: standing still is "L0000" and "R0000". */
  lemma StopCommands()
    ensures GenerateMotorCommands(Wheels(0, 0)) == Success(("L0000", "R0000"))
    ensures CorrectMessage("L0000") == Success("L0000") && CorrectMessage("R0000") == Success("R0000")
  {
    LiteralCommand('L', 0, 0, 0, 0);
    LiteralCommand('R', 0, 0, 0, 0);
    MotorCommandsDecode(Wheels(0, 0));
  }

  /** With no transport failure, a drive step logs the left command and then the right one. */
  lemma DriveLog(c: Channel, fault: FaultOracle, w: Wheels)
    requires Within(w, FullSpeed)
    requires NoFaults(fault, c.attempts, 2)
    ensures var next := SendEach(c, fault, [MakeMessage('L', w.left), MakeMessage('R', w.right)]);
      next.transmitted == c.transmitted + [MakeMessage('L', w.left), MakeMessage('R', w.right)]
      && next.attempts == c.attempts + 2
  {
    var plan := [MakeMessage('L', w.left), MakeMessage('R', w.right)];
    MotorCommandsDecode(w);
    assert forall i :: 0 <= i < |plan| ==> CorrectMessage(plan[i]) == Success(plan[i]);
    SendEachNoFault(c, fault, plan);
  }

  // ---------------------------------------------------------------------------
  // The object

  class DriveHelper {
    var turboModeOn: bool
    var speedForKeyboardControl: Byte
    var rotationModeOn: bool
    var leftMotorCommand: string
    var rightMotorCommand: string
    const communicationHelper: CommunicationHelper
    const controlSettings: Settings.ControlSettings

    constructor(communicationHelper: CommunicationHelper, controlSettings: Settings.ControlSettings)
      ensures this.communicationHelper == communicationHelper && this.controlSettings == controlSettings
      ensures !turboModeOn && !rotationModeOn && speedForKeyboardControl == controlSettings.speed3
      ensures leftMotorCommand == "" && rightMotorCommand == ""
    {
      this.communicationHelper := communicationHelper;
      this.controlSettings := controlSettings;
      turboModeOn := false;
      rotationModeOn := false;
      speedForKeyboardControl := controlSettings.speed3;
      leftMotorCommand := "";
      rightMotorCommand := "";
    }

    /** The scaling cap of the current drive mode. */
    function Coef(): Byte
      reads this, controlSettings
    {
      if turboModeOn then controlSettings.driveModeTurboMaxSpeed else controlSettings.driveModeNormalMaxSpeed
    }

    /** `SwitchTurboMode`; switching twice restores the mode. */
    method SwitchTurboMode()
      modifies this
      ensures turboModeOn == !old(turboModeOn)
      ensures speedForKeyboardControl == old(speedForKeyboardControl) && rotationModeOn == old(rotationModeOn)
      ensures leftMotorCommand == old(leftMotorCommand) && rightMotorCommand == old(rightMotorCommand)
    {
      turboModeOn := !turboModeOn;
    }

    /** The end of both `Drive` forms: store the two commands, then send the left one and the right one. */
    method StoreAndSend(leftCommand: string, rightCommand: string)
      modifies this, communicationHelper
      ensures leftMotorCommand == leftCommand && rightMotorCommand == rightCommand
      ensures turboModeOn == old(turboModeOn) && rotationModeOn == old(rotationModeOn)
      ensures speedForKeyboardControl == old(speedForKeyboardControl)
      ensures communicationHelper.State()
           == Send(Send(old(communicationHelper.State()), communicationHelper.fault, leftCommand).0, communicationHelper.fault, rightCommand).0
      ensures communicationHelper.repetitions == old(communicationHelper.repetitions)
    {
      leftMotorCommand := leftCommand;
      rightMotorCommand := rightCommand;
      var _ := communicationHelper.SendMessageToRobot(leftMotorCommand);
      var _ := communicationHelper.SendMessageToRobot(rightMotorCommand);
    }

    /** The keyboard form of `Drive`. */
    method DriveByKeys(forward: bool, backward: bool, left: bool, right: bool)
      modifies this, communicationHelper
      ensures var w := KeyboardMotorSpeeds(forward, backward, left, right, old(speedForKeyboardControl), old(Coef()));
        leftMotorCommand == MakeMessage('L', w.left) && rightMotorCommand == MakeMessage('R', w.right)
        && communicationHelper.State() == SendEach(old(communicationHelper.State()), communicationHelper.fault, [leftMotorCommand, rightMotorCommand])
      ensures turboModeOn == old(turboModeOn) && rotationModeOn == old(rotationModeOn)
      ensures speedForKeyboardControl == old(speedForKeyboardControl)
      ensures communicationHelper.repetitions == old(communicationHelper.repetitions)
    {
      var w := KeyboardMotorSpeeds(forward, backward, left, right, speedForKeyboardControl, Coef());
      MotorCommandsDecode(w);
      var commands := GenerateMotorCommands(w).value;
      SendEachPair(communicationHelper.State(), communicationHelper.fault, commands.0, commands.1);
      StoreAndSend(commands.0, commands.1);
    }

    /**
     * The joystick form of `Drive`, as written: with rotation mode on the inner
     * wheel is always reversed (see `RotationAsWritten`). `length` is
     * the stick's distance from the centre and `turn` the corrected sine of its
     * angle, both as the source computes them with `Math.Sqrt`.
     */
    method DriveByStick(x: real, y: real, length: real, turn: real)
      modifies this, communicationHelper
      ensures var w := StickMotorSpeedsAsWritten(x, y, length, turn, old(rotationModeOn), old(Coef()));
        leftMotorCommand == MakeMessage('L', w.left) && rightMotorCommand == MakeMessage('R', w.right)
        && communicationHelper.State() == SendEach(old(communicationHelper.State()), communicationHelper.fault, [leftMotorCommand, rightMotorCommand])
      ensures turboModeOn == old(turboModeOn) && rotationModeOn == old(rotationModeOn)
      ensures speedForKeyboardControl == old(speedForKeyboardControl)
      ensures communicationHelper.repetitions == old(communicationHelper.repetitions)
    {
      var w := StickMotorSpeedsAsWritten(x, y, length, turn, rotationModeOn, Coef());
      MotorCommandsDecode(w);
      var commands := GenerateMotorCommands(w).value;
      SendEachPair(communicationHelper.State(), communicationHelper.fault, commands.0, commands.1);
      StoreAndSend(commands.0, commands.1);
    }

    /** `Stop`: the joystick form at the centre, whose distance and sine are both 0. */
    method Stop()
      modifies this, communicationHelper
      ensures leftMotorCommand == "L0000" && rightMotorCommand == "R0000"
      ensures communicationHelper.State() == SendEach(old(communicationHelper.State()), communicationHelper.fault, ["L0000", "R0000"])
      ensures turboModeOn == old(turboModeOn) && rotationModeOn == old(rotationModeOn)
      ensures speedForKeyboardControl == old(speedForKeyboardControl)
      ensures communicationHelper.repetitions == old(communicationHelper.repetitions)
    {
      StickCentre(0.0, rotationModeOn, Coef());
      StopCommands();
      MotorCommandsDecode(Wheels(0, 0));
      DriveByStick(0.0, 0.0, 0.0, 0.0);
    }
  }
}
