/** The drift calculator `calculateDrift` (script.js, lines 191-226) and the outbound
    correction rule of lines 118-127: the acute angle between the wind and the course line,
    its quantised clock-code factor, and the single drift `round(maxDrift * factor)`. */
module Drift {
  import opened JsNumber

  /** What `calculateDrift` returns, without its display text: the acute wind angle, the
      clock-code factor chosen for it and the single drift in whole degrees. */
  datatype DriftResult = DriftResult(acuteAngle: real, factor: real, singleDrift: int)

  /** The factors the clock-code table can produce. */
  predicate IsClockFactor(f: real) {
    f == 0.0 || f == 1.0 / 3.0 || f == 0.5 || f == 0.75 || f == 1.0
  }

  /** The drift clock-code table of lines 198-216, read top-down: at least 53 degrees
      gives the full drift, at least 38 three quarters, at least 23 a half, any positive
      angle below that a third, and no angle at all none. */
  function DriftFactor(acute: real): (f: real)
    ensures IsClockFactor(f)
    ensures f == 0.0 <==> acute <= 0.0
    ensures f == 1.0 <==> acute >= 53.0
  {
    if acute >= 53.0 then 1.0
    else if acute >= 38.0 then 0.75
    else if acute >= 23.0 then 0.5
    else if acute > 0.0 then 1.0 / 3.0
    else 0.0
  }

  /** The acute angle between the wind and the line of the course, as computed on lines
      192-196: `|course - windDir|` folded once at 180 and then at 90. */
  function AcuteAngle(course: real, windDir: real): (a: real)
    ensures -360.0 <= course - windDir <= 360.0 ==> 0.0 <= a <= 90.0
  {
    var windAngle := FoldTo180(Abs(course - windDir));
    if windAngle > 90.0 then 180.0 - windAngle else windAngle
  }

  /** `calculateDrift(course, windDir, maxDrift)`. For a maximum drift that is not
      negative the single drift lies between 0 and the maximum drift, and it is 0 when
      the wind lies along the course line. */
  function CalculateDrift(course: real, windDir: real, maxDrift: int): (d: DriftResult)
    ensures IsClockFactor(d.factor)
    ensures -360.0 <= course - windDir <= 360.0 ==> 0.0 <= d.acuteAngle <= 90.0
    ensures d.acuteAngle <= 0.0 ==> d.singleDrift == 0
    ensures 0 <= maxDrift ==> 0 <= d.singleDrift <= maxDrift
    ensures d.acuteAngle >= 53.0 ==> d.singleDrift == maxDrift
  {
    var acute := AcuteAngle(course, windDir);
    var factor := DriftFactor(acute);
    DriftResult(acute, factor, Round(maxDrift as real * factor))
  }

  /** The outbound correction of lines 121-127: three single drifts when the outbound
      acute angle is above 30 degrees, two otherwise (so exactly 30 takes two). */
  function OutboundCorrection(outbound: DriftResult): (c: int)
    ensures outbound.acuteAngle > 30.0 ==> c == 3 * outbound.singleDrift
    ensures outbound.acuteAngle <= 30.0 ==> c == 2 * outbound.singleDrift
  {
    if outbound.acuteAngle > 30.0 then outbound.singleDrift * 3 else outbound.singleDrift * 2
  }

  /** The angle between the direction `r` (signed, in (-180,180]) and the nearest end of
      a line: the reference meaning of "acute wind angle". */
  function AxisAngle(r: real): real {
    var a := Abs(r);
    if a > 90.0 then 180.0 - a else a
  }

  /** The computed acute angle is the angle between the course line and the wind seen
      from the course, as a circular quantity: the `if` folds of lines 193 and 196 agree
      with reducing the relative wind to (-180,180] first. */
  lemma AcuteAngleIsAxisAngle(course: real, windDir: real)
    requires -360.0 <= course - windDir <= 360.0
    ensures AcuteAngle(course, windDir) == AxisAngle(SignedAngle(windDir - course))
  {
    var d := windDir - course;
    if d > 180.0 {
      SignedAngleUnique(d, d - 360.0, 1);
    } else if d <= -180.0 {
      SignedAngleUnique(d, d + 360.0, -1);
    } else {
      SignedAngleUnique(d, d, 0);
    }
  }

  /** A course and its reciprocal `(course + 180) % 360` make the same acute angle with the
      wind, which is why the outbound leg can reuse the drift table (lines 108, 112). */
  lemma ReciprocalSameAcuteAngle(course: real, windDir: real)
    requires 0.0 <= course < 360.0 && 0.0 <= windDir < 360.0
    ensures AcuteAngle(Rem360(course + 180.0), windDir) == AcuteAngle(course, windDir)
  {
    if course < 180.0 {
      Rem360Normalises(course + 180.0, course + 180.0, 0);
    } else {
      Rem360Normalises(course + 180.0, course - 180.0, 1);
    }
  }

  /** The table never gives a smaller factor for a larger angle. */
  lemma DriftFactorMonotonic(a: real, b: real)
    requires a <= b
    ensures DriftFactor(a) <= DriftFactor(b)
  {
  }

  /** The bucket boundaries: each lower threshold is inclusive, the last bucket (0,23)
      is open at 0. */
  lemma DriftFactorBoundaries()
    ensures DriftFactor(53.0) == 1.0 && DriftFactor(52.9) == 0.75
    ensures DriftFactor(38.0) == 0.75 && DriftFactor(37.9) == 0.5
    ensures DriftFactor(23.0) == 0.5 && DriftFactor(22.9) == 1.0 / 3.0
    ensures DriftFactor(0.1) == 1.0 / 3.0 && DriftFactor(0.0) == 0.0
  {
  }

  /** With a maximum drift that is not negative, the outbound correction is between 0
      and three maximum drifts, and it vanishes exactly when the single drift does. */
  lemma OutboundCorrectionBounds(course: real, windDir: real, maxDrift: int)
    requires 0 <= maxDrift
    ensures var d := CalculateDrift(course, windDir, maxDrift);
            0 <= OutboundCorrection(d) <= 3 * maxDrift &&
            (OutboundCorrection(d) == 0 <==> d.singleDrift == 0)
  {
  }

  /** With no maximum drift (a calm wind) there is no single drift on any course. */
  lemma NoDriftWithoutMaxDrift(course: real, windDir: real)
    ensures CalculateDrift(course, windDir, 0).singleDrift == 0
  {
    assert 0 as real * DriftFactor(AcuteAngle(course, windDir)) == 0.0;
  }
}
