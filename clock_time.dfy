/** The clock's time-to-angle arithmetic: the fractional minute and hour
    that onTimeChanged stores, and the rotations onDraw applies to the two
    hands. Floats are modelled as exact reals. */
module ClockTime {

  /** mMinutes: minutes past the hour, with the seconds as a fraction. */
  function MinutesOf(minute: int, second: int): real
  {
    minute as real + second as real / 60.0
  }

  /** mHour: hours on a 24-hour reading, with the minutes as a fraction. */
  function HourOf(hour: int, minutes: real): real
  {
    hour as real + minutes / 60.0
  }

  /** Degrees the hour hand is rotated by: mHour / 12 * 360. */
  function HourRotation(hour: real): real
  {
    hour / 12.0 * 360.0
  }

  /** Degrees the minute hand is rotated by: mMinutes / 60 * 360. */
  function MinuteRotation(minutes: real): real
  {
    minutes / 60.0 * 360.0
  }

  /** The angle of `k` whole turns, in degrees. */
  function Turns(k: int): real
  {
    360.0 * k as real
  }

  /** Two rotations that differ by whole turns leave an image in the same place. */
  ghost predicate SameOrientation(a: real, b: real)
  {
    exists k: int :: a - b == Turns(k)
  }

  /** The canonical representative in [0, 360) of a rotation. */
  function Orientation(degrees: real): (r: real)
    ensures 0.0 <= r < 360.0
    ensures SameOrientation(degrees, r)
  {
    var k := (degrees / 360.0).Floor;
    assert degrees - (degrees - 360.0 * k as real) == Turns(k);
    degrees - 360.0 * k as real
  }

  /** Within one turn, equal orientations are equal angles. */
  lemma {:induction false} CanonicalOrientation(a: real, b: real)
    requires 0.0 <= a < 360.0 && 0.0 <= b < 360.0
    requires SameOrientation(a, b)
    ensures a == b
  {
    var k: int :| a - b == Turns(k);
  }

  /** Adding whole turns does not change where an image points. */
  lemma {:induction false} OrientationShift(degrees: real, turns: int)
    ensures Orientation(degrees + 360.0 * turns as real) == Orientation(degrees)
  {
    var shifted := degrees + 360.0 * turns as real;
    var r1, r2 := Orientation(shifted), Orientation(degrees);
    var k1: int :| shifted - r1 == Turns(k1);
    var k2: int :| degrees - r2 == Turns(k2);
    assert r1 - r2 == Turns(turns - k1 + k2);
    CanonicalOrientation(r1, r2);
  }

  /** For a valid wall-clock reading both stored values lie in their
      natural ranges, the minute hand turns less than once and the hour
      hand less than twice. */
  lemma AngleRanges(hour: int, minute: int, second: int)
    requires 0 <= hour < 24 && 0 <= minute < 60 && 0 <= second < 60
    ensures 0.0 <= MinutesOf(minute, second) < 60.0
    ensures 0.0 <= HourOf(hour, MinutesOf(minute, second)) < 24.0
    ensures 0.0 <= MinuteRotation(MinutesOf(minute, second)) < 360.0
    ensures 0.0 <= HourRotation(HourOf(hour, MinutesOf(minute, second))) < 720.0
  {
  }

  /** At 3:00:00 the minute hand points up and the hour hand to three;
      at 6:30:00 the minute hand points down and the hour hand halfway
      between six and seven. */
  lemma CheckPoints()
    ensures MinuteRotation(MinutesOf(0, 0)) == 0.0
    ensures HourRotation(HourOf(3, MinutesOf(0, 0))) == 90.0
    ensures MinuteRotation(MinutesOf(30, 0)) == 180.0
    ensures HourRotation(HourOf(6, MinutesOf(30, 0))) == 195.0
  {
  }

  /** The hour hand moves 30 degrees per hour and half a degree per minute. */
  lemma HourHandRate(hour: int, minutes: real)
    ensures HourRotation(HourOf(hour, minutes)) == 30.0 * hour as real + minutes / 2.0
    ensures HourRotation(HourOf(hour + 1, minutes)) == HourRotation(HourOf(hour, minutes)) + 30.0
  {
  }

  /** Within one hour the hour hand never moves backwards. */
  lemma HourHandMonotonic(hour: int, m1: real, m2: real)
    requires m1 <= m2
    ensures HourRotation(HourOf(hour, m1)) <= HourRotation(HourOf(hour, m2))
  {
  }

  /** The hour hand does not jump at the top of the hour: sixty minutes
      past hour h is the same reading as hour h + 1 exactly. */
  lemma HourHandContinuous(hour: int)
    ensures HourOf(hour, MinutesOf(60, 0)) == HourOf(hour + 1, MinutesOf(0, 0))
  {
  }

  /** Advancing sixty minutes turns the minute hand once around, back to
      where it was. */
  lemma {:induction false} MinuteHandFullRevolution(minutes: real)
    ensures MinuteRotation(minutes + 60.0) == MinuteRotation(minutes) + 360.0
    ensures Orientation(MinuteRotation(minutes + 60.0)) == Orientation(MinuteRotation(minutes))
  {
    OrientationShift(MinuteRotation(minutes), 1);
  }

  /** The 24-hour reading gives the hour hand an angle in [360, 720) in the
      afternoon; that points exactly where the morning reading does. */
  lemma {:induction false} AfternoonMatchesMorning(hour: int, minutes: real)
    ensures HourRotation(HourOf(hour + 12, minutes)) == HourRotation(HourOf(hour, minutes)) + 360.0
    ensures Orientation(HourRotation(HourOf(hour + 12, minutes)))
         == Orientation(HourRotation(HourOf(hour, minutes)))
  {
    OrientationShift(HourRotation(HourOf(hour, minutes)), 1);
  }
}
