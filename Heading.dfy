/** The heading corrector `applyCorrection` (script.js, lines 228-240): correct a course
    into the wind by a given number of degrees. */
module Heading {
  import opened JsNumber

  /** The wind direction seen from the course, in (-180,180]: negative when the wind
      comes from the left of the course. */
  function RelativeWind(course: real, windDir: real): (r: real)
    ensures -180.0 < r <= 180.0
  {
    SignedAngle(windDir - course)
  }

  /** The heading `applyCorrection` returns, stated with the closed-form relative wind:
      `course - correction` for a wind from the left, `course + correction` otherwise
      (a wind straight ahead or behind counts as from the right), then
      `(heading + 360) % 360`, so the heading lies in [0,360) once the uncorrected sum
      is at least -360. */
  function CorrectedHeading(course: real, windDir: real, correction: real): (h: real)
    ensures course - correction >= -360.0 && course + correction >= -360.0 ==> 0.0 <= h < 360.0
  {
    var heading := if RelativeWind(course, windDir) < 0.0 then course - correction
                   else course + correction;
    Rem360(heading + 360.0)
  }

  /** `applyCorrection` as the source runs it: the two `while` loops bring
      `windDir - course` into (-180,180] by whole turns, then the sign picks the side. */
  method ApplyCorrection(course: real, windDir: real, correction: real) returns (heading: real)
    ensures heading == CorrectedHeading(course, windDir, correction)
  {
    var relativeWind := windDir - course;
    ghost var turns := 0;
    while relativeWind <= -180.0
      invariant relativeWind == windDir - course + 360.0 * turns as real
      decreases ((-180.0 - relativeWind) / 360.0).Floor
    {
      relativeWind := relativeWind + 360.0;
      turns := turns + 1;
    }
    while relativeWind > 180.0
      invariant relativeWind > -180.0
      invariant relativeWind == windDir - course + 360.0 * turns as real
      decreases ((relativeWind - 180.0) / 360.0).Floor
    {
      relativeWind := relativeWind - 360.0;
      turns := turns - 1;
    }
    SignedAngleUnique(windDir - course, relativeWind, -turns);
    heading := course;
    if relativeWind < 0.0 {
      heading := course - correction;
    } else {
      heading := course + correction;
    }
    heading := Rem360(heading + 360.0);
  }

  /** "Correct into the wind": by a correction in [0,180) the heading turns away from the
      course towards the side the wind comes from, by exactly the correction. */
  lemma CorrectsIntoWind(course: real, windDir: real, correction: real)
    requires 0.0 <= correction < 180.0
    ensures var h := CorrectedHeading(course, windDir, correction);
            SignedAngle(h - course) ==
              (if RelativeWind(course, windDir) < 0.0 then -correction else correction)
  {
    var x := if RelativeWind(course, windDir) < 0.0 then course - correction
             else course + correction;
    var h := CorrectedHeading(course, windDir, correction);
    SignedAngleUnique(h - course, x - course, 1 - Trunc360(x + 360.0));
  }

  /** A correction of 0 leaves a course in [0,360) unchanged. */
  lemma ZeroCorrection(course: real, windDir: real)
    requires 0.0 <= course < 360.0
    ensures CorrectedHeading(course, windDir, 0.0) == course
  {
    Rem360Fixed(course);
  }

  /** A wind from the right (or straight along the course) adds the correction. For
      course 360 and wind 090 the relative wind is +90, so the correction is added and
      the heading comes out as the correction itself. */
  lemma CourseNorthWindEast(correction: real)
    requires 0.0 <= correction < 360.0
    ensures RelativeWind(360.0, 90.0) == 90.0
    ensures CorrectedHeading(360.0, 90.0, correction) == correction
  {
    SignedAngleUnique(90.0 - 360.0, 90.0, -1);
    Rem360Normalises(360.0 + correction + 360.0, correction, 2);
  }
}
