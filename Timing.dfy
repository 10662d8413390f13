/** The outbound timing model of `calculateAll` (script.js, lines 135-182): classify the
    outbound leg as tailwind or headwind from the inbound course, choose a factor from a
    second clock-code table applied to `90 - acuteDiff`, and shorten or lengthen the base
    outbound time by `iSpd * factor` seconds. */
module Timing {
  import opened JsNumber

  /** The intermediate values and the result of the timing steps. */
  datatype TimingResult = TimingResult(
    angleDiff: real,     // |inboundCourse - windDir| after the fold of line 140
    isTailwind: bool,    // tailwind on the outbound leg
    acuteDiff: real,
    ruleAngle: real,     // 90 - acuteDiff
    timeFactor: real,
    finalTime: real)     // seconds, not rounded

  /** The time clock-code table of lines 161-173. It is written out separately in the
      source and is kept separate here; `TimeFactorMatchesDriftTable` shows the two
      tables agree. */
  function TimeFactor(ruleAngle: real): (f: real)
    ensures 0.0 <= f <= 1.0
    ensures f == 0.0 <==> ruleAngle <= 0.0
  {
    if ruleAngle >= 53.0 then 1.0
    else if ruleAngle >= 38.0 then 0.75
    else if ruleAngle >= 23.0 then 0.5
    else if ruleAngle > 0.0 then 1.0 / 3.0
    else 0.0
  }

  /** The timing computation with the loop of line 140 replaced by the single fold it
      amounts to (`FoldAngleDiff` shows the loop never runs twice). The tailwind case
      takes the correction off the base time, the headwind case adds it; a wind square
      to the course (acute difference 90) changes nothing. */
  function OutboundTiming(inboundCourse: real, windDir: real, iSpd: int, baseTime: real): (t: TimingResult)
    ensures t.isTailwind <==> t.angleDiff < 90.0
    ensures -360.0 <= inboundCourse - windDir <= 360.0 ==>
              0.0 <= t.angleDiff <= 180.0 && 0.0 <= t.acuteDiff <= 90.0 && 0.0 <= t.ruleAngle <= 90.0
    ensures 0 <= iSpd && t.isTailwind ==> baseTime - iSpd as real <= t.finalTime <= baseTime
    ensures 0 <= iSpd && !t.isTailwind ==> baseTime <= t.finalTime <= baseTime + iSpd as real
    ensures t.acuteDiff == 90.0 ==> t.timeFactor == 0.0 && t.finalTime == baseTime
  {
    var angleDiff := FoldTo180(Abs(inboundCourse - windDir));
    var isTailwind := angleDiff < 90.0;
    var acuteDiff := if angleDiff > 90.0 then 180.0 - angleDiff else angleDiff;
    var ruleAngle := 90.0 - acuteDiff;
    var timeFactor := TimeFactor(ruleAngle);
    var correctionSpeed := iSpd as real * timeFactor;
    var finalTime := if isTailwind then baseTime - correctionSpeed else baseTime + correctionSpeed;
    assert 0 <= iSpd ==> 0.0 <= correctionSpeed <= iSpd as real by {
      if 0 <= iSpd { CorrectionWithinSpeed(iSpd, timeFactor); }
    }
    TimingResult(angleDiff, isTailwind, acuteDiff, ruleAngle, timeFactor, finalTime)
  }

  lemma CorrectionWithinSpeed(iSpd: int, f: real)
    requires 0 <= iSpd && 0.0 <= f <= 1.0
    ensures 0.0 <= iSpd as real * f <= iSpd as real
  {
    assert iSpd as real * (1.0 - f) >= 0.0;
  }

  /** The `while (angleDiff > 180) angleDiff = 360 - angleDiff` loop of line 140. After
      one step the value is below 180, so the loop runs at most once and equals the
      single fold; for a starting value above 540 the result is below -180. */
  method FoldAngleDiff(a: real) returns (angleDiff: real)
    ensures angleDiff == FoldTo180(a)
    ensures a > 540.0 ==> angleDiff < -180.0
  {
    angleDiff := a;
    while angleDiff > 180.0
      invariant angleDiff == a || (a > 180.0 && angleDiff == 360.0 - a)
      decreases if angleDiff > 180.0 then 1 else 0
    {
      angleDiff := 360.0 - angleDiff;
    }
  }

  /** `OutboundTiming` as the source computes it, reassigning its locals step by step and
      running the loop of line 140. */
  method ComputeTiming(inboundCourse: real, windDir: real, iSpd: int, baseTime: real) returns (t: TimingResult)
    ensures t == OutboundTiming(inboundCourse, windDir, iSpd, baseTime)
  {
    var angleDiff := FoldAngleDiff(Abs(inboundCourse - windDir));
    var isTailwind := angleDiff < 90.0;
    var acuteDiff := angleDiff;
    if acuteDiff > 90.0 {
      acuteDiff := 180.0 - acuteDiff;
    }
    var ruleAngle := 90.0 - acuteDiff;
    var timeFactor := 0.0;
    if ruleAngle >= 53.0 {
      timeFactor := 1.0;
    } else if ruleAngle >= 38.0 {
      timeFactor := 0.75;
    } else if ruleAngle >= 23.0 {
      timeFactor := 0.5;
    } else if ruleAngle > 0.0 {
      timeFactor := 1.0 / 3.0;
    } else {
      timeFactor := 0.0;
    }
    var correctionSpeed := iSpd as real * timeFactor;
    var finalTime := 0.0;
    if isTailwind {
      finalTime := baseTime - correctionSpeed;
    } else {
      finalTime := baseTime + correctionSpeed;
    }
    t := TimingResult(angleDiff, isTailwind, acuteDiff, ruleAngle, timeFactor, finalTime);
  }

  /** The angle difference is the circular distance between the inbound course and the
      wind direction, and the outbound leg has a tailwind exactly when the wind blows
      from less than 90 degrees off the inbound course's nose. */
  lemma AngleDiffIsCircularDistance(inboundCourse: real, windDir: real, iSpd: int, baseTime: real)
    requires -360.0 <= inboundCourse - windDir <= 360.0
    ensures var t := OutboundTiming(inboundCourse, windDir, iSpd, baseTime);
            t.angleDiff == Abs(SignedAngle(windDir - inboundCourse)) &&
            (t.isTailwind <==> Abs(SignedAngle(windDir - inboundCourse)) < 90.0)
  {
    var d := windDir - inboundCourse;
    if d > 180.0 {
      SignedAngleUnique(d, d - 360.0, 1);
    } else if d <= -180.0 {
      SignedAngleUnique(d, d + 360.0, -1);
    } else {
      SignedAngleUnique(d, d, 0);
    }
  }

  /** A wind exactly square to the inbound course counts as a headwind on the outbound
      leg and leaves the base time unchanged: course 000, wind 090. */
  lemma SquareWindIsHeadwind(iSpd: int, baseTime: real)
    ensures var t := OutboundTiming(0.0, 90.0, iSpd, baseTime);
            t.angleDiff == 90.0 && !t.isTailwind && t.finalTime == baseTime
  {
  }

  /** A calm wind leaves the base time unchanged, whatever the course. */
  lemma CalmKeepsBaseTime(inboundCourse: real, windDir: real, baseTime: real)
    ensures OutboundTiming(inboundCourse, windDir, 0, baseTime).finalTime == baseTime
  {
    var t := OutboundTiming(inboundCourse, windDir, 0, baseTime);
    assert 0 as real * t.timeFactor == 0.0;
  }
}
