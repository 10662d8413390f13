/** The numeric body of `calculateAll` (script.js, lines 52-189) and the gate-2 bearing
    that `drawHold` derives from the inbound course (lines 429-430): from the already
    parsed inputs to every value the page displays, as one result record. */
module Hold {
  import opened JsNumber
  import opened Wind
  import opened WindText
  import opened Drift
  import opened Heading
  import opened Timing

  /** The nine input fields as they are typed. */
  datatype RawInputs = RawInputs(
    targetAlt: string, lowAlt: string, lowWind: string, highAlt: string, highWind: string,
    magVar: string, course: string, tas: string, baseTime: string)

  /** The inputs after parsing and defaulting (lines 54-64, 87, 93-94, 136). */
  datatype Inputs = Inputs(
    targetAlt: real, lowAlt: real, low: Wind, highAlt: real, high: Wind,
    variation: real, inboundCourse: real, tas: real, baseTime: real)

  /** Everything `calculateAll` computes (the values behind the `textContent` writes). */
  datatype HoldResult = HoldResult(
    iDir: int, iSpd: int, magDir: real, maxDrift: int,
    inbound: DriftResult, inboundHdg: real,
    outboundCourse: real, outbound: DriftResult, outboundCorrection: int, outboundHdg: real,
    timing: TimingResult, gate2: real)

  /** Parsing every field with `parseFloat(v) || default`: 120 knots for the true
      airspeed, 60 seconds for the base time and 0 for every other number. Neither the
      airspeed nor the base time can come out as 0. */
  function ParseInputs(raw: RawInputs, parse: string -> Option<real>): (inp: Inputs)
    ensures inp.tas != 0.0 && inp.baseTime != 0.0
    ensures parse(raw.tas).None? || parse(raw.tas) == Some(0.0) ==> inp.tas == 120.0
    ensures parse(raw.baseTime).None? || parse(raw.baseTime) == Some(0.0) ==> inp.baseTime == 60.0
  {
    Inputs(OrDefault(parse(raw.targetAlt), 0.0), OrDefault(parse(raw.lowAlt), 0.0),
           ParseWind(raw.lowWind, parse),
           OrDefault(parse(raw.highAlt), 0.0), ParseWind(raw.highWind, parse),
           OrDefault(parse(raw.magVar), 0.0), OrDefault(parse(raw.course), 0.0),
           OrDefault(parse(raw.tas), 120.0), OrDefault(parse(raw.baseTime), 60.0))
  }

  /** The 1-in-60 rule of line 95: the drift for a full crosswind, in whole degrees. */
  function MaxDrift(iSpd: int, tas: real): (m: int)
    requires tas != 0.0
    ensures 0 <= iSpd && 0.0 < tas ==> 0 <= m
    ensures iSpd as real * 60.0 / tas - 0.5 < m as real <= iSpd as real * 60.0 / tas + 0.5
  {
    Round(iSpd as real * 60.0 / tas)
  }

  /** The outbound course `(inboundCourse + 180) % 360` of line 108: the reciprocal, in
      [0,360) for every inbound course of at least -180. */
  function OutboundCourse(inboundCourse: real): (c: real)
    ensures inboundCourse >= -180.0 ==> 0.0 <= c < 360.0
  {
    Rem360(inboundCourse + 180.0)
  }

  /** For an inbound course in [0,540) the outbound course is half a turn on from it:
      `course + 180` below 180 and `course - 180` from 180 on. */
  lemma OutboundCourseValue(inboundCourse: real)
    requires 0.0 <= inboundCourse < 540.0
    ensures OutboundCourse(inboundCourse) ==
            if inboundCourse < 180.0 then inboundCourse + 180.0 else inboundCourse - 180.0
  {
    if inboundCourse < 180.0 {
      Rem360Normalises(inboundCourse + 180.0, inboundCourse + 180.0, 0);
    } else {
      Rem360Normalises(inboundCourse + 180.0, inboundCourse - 180.0, 1);
    }
  }

  /** The gate-2 bearing of lines 429-430: `inboundCourse - 60`, with one turn added when
      that is negative. For an inbound course in [0,360) it lies in [0,360). */
  function Gate2Bearing(inboundCourse: real): (g: real)
    ensures 0.0 <= inboundCourse < 360.0 ==> 0.0 <= g < 360.0
  {
    var g := inboundCourse - 60.0;
    if g < 0.0 then g + 360.0 else g
  }

  /** `calculateAll` on parsed inputs, with each step in closed form. The rounded wind,
      not the interpolated one, feeds every later step. */
  function Hold(inp: Inputs): (r: HoldResult)
    requires inp.tas != 0.0
    ensures inp.highAlt == inp.lowAlt ==> r.iDir == Round(inp.low.dir) && r.iSpd == Round(inp.low.spd)
    ensures r.iDir as real + inp.variation >= -360.0 ==> IsDirection(r.magDir)
  {
    var w := Interpolate(inp.targetAlt, inp.lowAlt, inp.highAlt, inp.low, inp.high);
    var iDir := Round(w.dir);
    var iSpd := Round(w.spd);
    var magDir := MagneticDir(iDir, inp.variation);
    var maxDrift := MaxDrift(iSpd, inp.tas);
    var inbound := CalculateDrift(inp.inboundCourse, magDir, maxDrift);
    var outboundCourse := OutboundCourse(inp.inboundCourse);
    var outbound := CalculateDrift(outboundCourse, magDir, maxDrift);
    var correction := OutboundCorrection(outbound);
    HoldResult(
      iDir, iSpd, magDir, maxDrift,
      inbound, CorrectedHeading(inp.inboundCourse, magDir, inbound.singleDrift as real),
      outboundCourse, outbound, correction,
      CorrectedHeading(outboundCourse, magDir, correction as real),
      OutboundTiming(inp.inboundCourse, magDir, iSpd, inp.baseTime),
      Gate2Bearing(inp.inboundCourse))
  }

  /** The whole page computation from the typed text: parsing makes the airspeed
      non-zero, so the maximum drift never divides by zero. */
  function HoldFromText(raw: RawInputs, parse: string -> Option<real>): HoldResult {
    Hold(ParseInputs(raw, parse))
  }

  /** An airspeed field that is empty, unreadable or 0 means 120 knots, so the maximum
      drift is half the rounded wind speed, rounded. */
  lemma HoldFromTextDefaultAirspeed(raw: RawInputs, parse: string -> Option<real>)
    requires parse(raw.tas).None? || parse(raw.tas) == Some(0.0)
    ensures var r := HoldFromText(raw, parse);
            r.maxDrift == Round(r.iSpd as real / 2.0)
  {
    var inp := ParseInputs(raw, parse);
    var r := Hold(inp);
    assert r.maxDrift == MaxDrift(r.iSpd, 120.0);
    MaxDriftAtDefaultTas(r.iSpd);
  }

  /** With both wind fields empty the wind is calm at any target altitude: no drift, no
      outbound correction, and the outbound leg takes exactly the base time. */
  lemma HoldFromTextCalm(raw: RawInputs, parse: string -> Option<real>)
    requires raw.lowWind == [] && raw.highWind == []
    ensures var r := HoldFromText(raw, parse);
      && r.iDir == 0 && r.iSpd == 0 && r.maxDrift == 0
      && r.inbound.singleDrift == 0 && r.outbound.singleDrift == 0 && r.outboundCorrection == 0
      && r.timing.finalTime == ParseInputs(raw, parse).baseTime
  {
    var inp := ParseInputs(raw, parse);
    assert inp.low == Wind(0.0, 0.0) && inp.high == Wind(0.0, 0.0);
    HoldCalm(inp);
  }

  /** Calm band winds give a calm rounded wind, no drift and no correction, at any
      target altitude and for any airspeed and base time. */
  lemma HoldCalm(inp: Inputs)
    requires inp.tas != 0.0 && inp.low == Wind(0.0, 0.0) && inp.high == Wind(0.0, 0.0)
    ensures var r := Hold(inp);
      && r.iDir == 0 && r.iSpd == 0 && r.maxDrift == 0
      && r.inbound.singleDrift == 0 && r.outbound.singleDrift == 0 && r.outboundCorrection == 0
      && r.timing.finalTime == inp.baseTime
  {
    InterpolateCalm(inp.targetAlt, inp.lowAlt, inp.highAlt);
    var r := Hold(inp);
    assert r.iDir == Round(0.0) && r.iSpd == Round(0.0);
    assert r.maxDrift == MaxDrift(0, inp.tas) == 0;
    assert r.inbound == CalculateDrift(inp.inboundCourse, r.magDir, 0);
    NoDriftWithoutMaxDrift(inp.inboundCourse, r.magDir);
    assert r.outbound == CalculateDrift(r.outboundCourse, r.magDir, 0);
    NoDriftWithoutMaxDrift(r.outboundCourse, r.magDir);
    assert r.outboundCorrection == OutboundCorrection(r.outbound);
    assert r.timing == OutboundTiming(inp.inboundCourse, r.magDir, 0, inp.baseTime);
    CalmKeepsBaseTime(inp.inboundCourse, r.magDir, inp.baseTime);
  }

  /** `calculateAll` as the source runs it, reassigning its locals step by step and
      calling the loop-based `applyCorrection` and timing fold. */
  method CalculateAll(inp: Inputs) returns (r: HoldResult)
    requires inp.tas != 0.0
    ensures r == Hold(inp)
  {
    // --- 1. winds
    var windDir, windSpd := InterpolateWind(inp.targetAlt, inp.lowAlt, inp.highAlt, inp.low, inp.high);
    var iDir := Round(windDir);
    var iSpd := Round(windSpd);
    var magDir := iDir as real + inp.variation;
    magDir := Rem360(magDir + 360.0);
    assert magDir == MagneticDir(iDir, inp.variation);

    // --- 2. configuration
    var inboundCourse := inp.inboundCourse;
    var standardMaxDrift := Round(iSpd as real * 60.0 / inp.tas);
    assert standardMaxDrift == MaxDrift(iSpd, inp.tas);

    // --- 3. inbound leg
    var inboundRes := CalculateDrift(inboundCourse, magDir, standardMaxDrift);
    var inboundHdg := ApplyCorrection(inboundCourse, magDir, inboundRes.singleDrift as real);

    // --- 4. outbound leg
    var outboundCourse := Rem360(inboundCourse + 180.0);
    assert outboundCourse == OutboundCourse(inboundCourse);
    var outboundRes := CalculateDrift(outboundCourse, magDir, standardMaxDrift);
    var finalCorrection := 0;
    if outboundRes.acuteAngle > 30.0 {
      finalCorrection := outboundRes.singleDrift * 3;
    } else {
      finalCorrection := outboundRes.singleDrift * 2;
    }
    assert finalCorrection == OutboundCorrection(outboundRes);
    var outboundHdg := ApplyCorrection(outboundCourse, magDir, finalCorrection as real);
    var timing := ComputeTiming(inboundCourse, magDir, iSpd, inp.baseTime);

    // gate 2, as drawn
    var gate2Deg := inboundCourse - 60.0;
    if gate2Deg < 0.0 {
      gate2Deg := gate2Deg + 360.0;
    }
    assert gate2Deg == Gate2Bearing(inboundCourse);
    r := HoldResult(iDir, iSpd, magDir, standardMaxDrift, inboundRes, inboundHdg,
                    outboundCourse, outboundRes, finalCorrection, outboundHdg, timing, gate2Deg);
  }

  /** With the default airspeed of 120 knots the maximum drift is half the wind speed,
      rounded. */
  lemma MaxDriftAtDefaultTas(iSpd: int)
    ensures MaxDrift(iSpd, 120.0) == Round(iSpd as real / 2.0)
  {
    assert iSpd as real * 60.0 / 120.0 == iSpd as real / 2.0;
  }

  /** The two clock-code tables agree bucket for bucket, although the source keeps them
      apart and applies them to different angles. */
  lemma TimeFactorMatchesDriftTable(a: real)
    ensures TimeFactor(a) == DriftFactor(a)
  {
  }

  /** Gate 2 lies 60 degrees to the left of the inbound course. */
  lemma Gate2SixtyLeft(inboundCourse: real)
    requires 0.0 <= inboundCourse < 360.0
    ensures SignedAngle(Gate2Bearing(inboundCourse) - inboundCourse) == -60.0
  {
    var g := Gate2Bearing(inboundCourse);
    SignedAngleUnique(g - inboundCourse, -60.0, if inboundCourse < 60.0 then 1 else 0);
  }

  /** The inputs the range lemmas below cover: band directions and the inbound course
      in [0,360), the target altitude inside the band (or both band altitudes equal),
      calm or positive band speeds, a positive airspeed, and a variation of at least
      -360. The page itself accepts more: it extrapolates outside the band, where a
      direction can come out negative (`ExtrapolationLeavesNegativeDirection`). */
  predicate InRange(inp: Inputs) {
    && IsDirection(inp.low.dir) && IsDirection(inp.high.dir) && IsDirection(inp.inboundCourse)
    && (inp.highAlt == inp.lowAlt
        || inp.lowAlt <= inp.targetAlt <= inp.highAlt
        || inp.highAlt <= inp.targetAlt <= inp.lowAlt)
    && 0.0 <= inp.low.spd && 0.0 <= inp.high.spd
    && 0.0 < inp.tas && -360.0 <= inp.variation
  }

  /** On such inputs the rounded wind has a direction in [0,360] (a direction just
      below 360 rounds up to 360) and a speed of at least 0, the magnetic direction lies
      in [0,360) and the maximum drift is not negative. */
  lemma {:induction false} HoldWindRanges(inp: Inputs)
    requires InRange(inp)
    ensures var r := Hold(inp);
      && 0 <= r.iDir <= 360 && 0 <= r.iSpd && 0 <= r.maxDrift && IsDirection(r.magDir)
  {
    var w := Interpolate(inp.targetAlt, inp.lowAlt, inp.highAlt, inp.low, inp.high);
    if inp.highAlt != inp.lowAlt {
      InterpolateWithinBand(inp.targetAlt, inp.lowAlt, inp.highAlt, inp.low, inp.high);
    }
    assert IsDirection(w.dir) && 0.0 <= w.spd;
    var r := Hold(inp);
    assert r.iDir == Round(w.dir) && r.iSpd == Round(w.spd);
    assert r.magDir == MagneticDir(r.iDir, inp.variation);
    assert r.maxDrift == MaxDrift(r.iSpd, inp.tas);
  }

  /** On such inputs the outbound course is the reciprocal in [0,360), and the outbound
      leg reuses the inbound drift result (the same acute angle in [0,90], so the same
      factor and single drift); the outbound correction lies between 0 and three maximum
      drifts. */
  lemma {:induction false} HoldLegs(inp: Inputs)
    requires InRange(inp)
    ensures var r := Hold(inp);
      && IsDirection(r.outboundCourse)
      && 0.0 <= r.inbound.acuteAngle <= 90.0
      && r.outbound == r.inbound
      && 0 <= r.outboundCorrection <= 3 * r.maxDrift
  {
    HoldWindRanges(inp);
    var r := Hold(inp);
    LegsAgree(inp.inboundCourse, r.magDir, r.maxDrift);
  }

  /** The outbound leg flies the reciprocal of a course in [0,360), meets the wind at the
      same acute angle and so takes the same drift result as the inbound leg. */
  lemma LegsAgree(course: real, windDir: real, maxDrift: int)
    requires IsDirection(course) && IsDirection(windDir) && 0 <= maxDrift
    ensures IsDirection(OutboundCourse(course))
    ensures var inbound := CalculateDrift(course, windDir, maxDrift);
      && CalculateDrift(OutboundCourse(course), windDir, maxDrift) == inbound
      && 0.0 <= inbound.acuteAngle <= 90.0
      && 0 <= OutboundCorrection(inbound) <= 3 * maxDrift
  {
    ReciprocalSameAcuteAngle(course, windDir);
    OutboundCorrectionBounds(course, windDir, maxDrift);
  }

  /** On such inputs the timing angles lie in their ranges and gate 2 in [0,360). */
  lemma {:induction false} HoldTimingRanges(inp: Inputs)
    requires InRange(inp)
    ensures var r := Hold(inp);
      && 0.0 <= r.timing.angleDiff <= 180.0 && 0.0 <= r.timing.ruleAngle <= 90.0
      && IsDirection(r.gate2)
  {
    HoldWindRanges(inp);
    var r := Hold(inp);
    assert r.timing == OutboundTiming(inp.inboundCourse, r.magDir, r.iSpd, inp.baseTime);
  }

  /** On such inputs, while the maximum drift is at most 120 degrees, both headings lie
      in [0,360). */
  lemma {:induction false} HoldHeadingRanges(inp: Inputs)
    requires InRange(inp)
    ensures var r := Hold(inp);
      r.maxDrift <= 120 ==> IsDirection(r.inboundHdg) && IsDirection(r.outboundHdg)
  {
    HoldLegs(inp);
    var r := Hold(inp);
    assert r.inboundHdg == CorrectedHeading(inp.inboundCourse, r.magDir, r.inbound.singleDrift as real);
    assert r.outboundHdg == CorrectedHeading(r.outboundCourse, r.magDir, r.outboundCorrection as real);
  }

  /** The worked example: target 5000 ft between 3000 ft (270/20) and 6000 ft (300/40),
      variation 10, inbound course 090, 120 knots, 60 seconds. The wind comes out as
      290/33 true and 300/33 magnetic, the maximum drift as round(16.5) = 17, both acute
      angles as 30 (single drift round(8.5) = 9), the inbound heading as 081, the outbound
      correction as 2 x 9 = 18 (30 is not above 30), the outbound heading as 288, and the
      outbound leg (a headwind, rule angle 60, factor 1) takes 60 + 33 = 93 seconds. */
  lemma WorkedExample()
    ensures var r := Hold(Inputs(5000.0, 3000.0, Wind(270.0, 20.0), 6000.0, Wind(300.0, 40.0),
                                 10.0, 90.0, 120.0, 60.0));
      && r.iDir == 290 && r.iSpd == 33 && r.magDir == 300.0 && r.maxDrift == 17
      && r.inbound == DriftResult(30.0, 0.5, 9) && r.inboundHdg == 81.0
      && r.outboundCourse == 270.0 && r.outbound == DriftResult(30.0, 0.5, 9)
      && r.outboundCorrection == 18 && r.outboundHdg == 288.0
      && r.timing == TimingResult(150.0, false, 30.0, 60.0, 1.0, 93.0)
      && r.gate2 == 30.0
  {
    var low, high := Wind(270.0, 20.0), Wind(300.0, 40.0);
    assert Ratio(5000.0, 3000.0, 6000.0) == 2.0 / 3.0;
    assert ShortestDiff(270.0, 300.0) == 30.0;
    Rem360Normalises(270.0 + 30.0 * (2.0 / 3.0) + 360.0, 290.0, 1);
    var w := Interpolate(5000.0, 3000.0, 6000.0, low, high);
    assert w == Wind(290.0, 20.0 + 20.0 * (2.0 / 3.0));
    assert Round(w.spd) == 33;
    assert MagneticDir(290, 10.0) == 300.0;
    assert MaxDrift(33, 120.0) == 17;
    SignedAngleUnique(300.0 - 90.0, -150.0, 1);
    Rem360Normalises(90.0 - 9.0 + 360.0, 81.0, 1);
    assert OutboundCourse(90.0) == 270.0;
    SignedAngleUnique(300.0 - 270.0, 30.0, 0);
    Rem360Normalises(270.0 + 18.0 + 360.0, 288.0, 1);
  }

  /** With every field empty or unreadable the page shows a calm wind, no drift, the
      inbound course 000 flown as heading 000, the reciprocal 180 and a 60 second outbound
      leg (the calm wind sits on the course line, which counts as a tailwind with no
      correction). */
  lemma AllFieldsUnreadable(raw: RawInputs, parse: string -> Option<real>)
    requires forall t :: parse(t).None?
    ensures var r := HoldFromText(raw, parse);
      && r.iDir == 0 && r.iSpd == 0 && r.magDir == 0.0 && r.maxDrift == 0
      && r.inbound.singleDrift == 0 && r.inboundHdg == 0.0
      && r.outboundCourse == 180.0 && r.outboundCorrection == 0 && r.outboundHdg == 180.0
      && r.timing.isTailwind && r.timing.finalTime == 60.0 && r.gate2 == 300.0
  {
    var inp := ParseInputs(raw, parse);
    assert inp == Inputs(0.0, 0.0, Wind(0.0, 0.0), 0.0, Wind(0.0, 0.0), 0.0, 0.0, 120.0, 60.0);
    var r := Hold(inp);
    assert r.iDir == 0 && r.iSpd == 0;
    MagneticDirValue(0, 0.0);
    assert r.magDir == 0.0 && r.maxDrift == 0;
    OutboundCourseValue(0.0);
    assert r.outboundCourse == 180.0;
    assert r.inbound == CalculateDrift(0.0, 0.0, 0) && r.outbound == CalculateDrift(180.0, 0.0, 0);
    ZeroCorrection(0.0, 0.0);
    ZeroCorrection(180.0, 0.0);
    assert r.timing == OutboundTiming(0.0, 0.0, 0, 60.0);
  }
}
