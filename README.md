# Holding-pattern calculator: a Dafny model

The calculator reads nine fields:
- a target altitude;
- the altitudes and winds ("direction/speed") of a low and a high band;
- the magnetic variation;
- the inbound course;
- the true airspeed;
- the base outbound time.

From these it works out everything needed to fly a holding pattern:
- the wind at the target altitude, true and magnetic;
- the maximum drift from the 1-in-60 rule;
- the single drift and heading on the inbound leg;
- the reciprocal outbound course, its tripled or doubled drift correction and its heading;
- the outbound leg time, corrected for a head- or tailwind;
- the gate-2 bearing drawn on the diagram.

This project models that numeric engine of `script.js` over exact reals and proves its properties.

Modules:

- `JsNumber` holds the JavaScript number operations the engine relies on:
  - `Math.round`;
  - the truncating remainder `x % 360`, whose sign follows the dividend;
  - the `parseFloat(v) || d` fallback.

  It also holds the reference notion of a signed direction in (-180,180], plus uniqueness lemmas used throughout.
- `Wind` does the wind interpolation between the bands, with the shortest-way direction difference, and the magnetic direction.
- `WindText` models `parseWind`. The text is split at `/` exactly as `split('/')` does, with both round trips proved. `parseFloat` is a parameter.
- `Drift` models `calculateDrift`: the acute wind angle, the clock-code factor table and the single drift. It also holds the outbound 3×/2× correction rule.
- `Heading` models `applyCorrection`. It is a method with the source's two `while` loops, proved equal to a closed-form function.
- `Timing` models the outbound timing: the head/tailwind classification, the second clock-code table and the final time. It includes the `while` fold of line 140 as a method.
- `Format` models `pad0` for whole numbers that are not negative.
- `Hold` has three parts:
  - `calculateAll` as a function `Hold` from parsed inputs to a result record;
  - the step-by-step method `CalculateAll` proved equal to it;
  - the parsing layer, range lemmas over the whole computation and a worked example.

Where the code and its comments, or its apparent intent, differ, the model follows the code:
- The comment at lines 115-116 speaks of "3 * MaxDrift" and "2 * MaxDrift". The code multiplies the single drift, and so does `OutboundCorrection`.
- The comment at line 160 gives the last time bucket as ">= 12". The code uses "> 0", and so does `TimeFactor`.
- Lines 74-76 look like a normalisation of the direction difference into (-180,180], but the two sequential corrections keep both -180 and 180, so the range is [-180,180]. `ShortestDiff` and `ShortestDiffIsSignedAngle` state this.
- The loop on line 140 reads like a normalisation, but it can run at most once. `FoldAngleDiff` proves this, and for a difference above 540 it leaves a value below -180.

## Model

| member | source | states |
|---|---|---|
| JsNumber.Round | script.js:83-84 | `Math.round` gives the integer nearest to x, with halves going up: x - 1/2 < r <= x + 1/2 |
| JsNumber.Rem360 | script.js:79 | JavaScript `x % 360` has the dividend's sign: in [0,360) for x >= 0 and in (-360,0] for x < 0 |
| JsNumber.Rem360Normalises | script.js:79 | for x >= 0, `x % 360` is the one representative in [0,360) of x's direction |
| JsNumber.Rem360Fixed | script.js:89 | `(x + 360) % 360` leaves a direction already in [0,360) unchanged |
| JsNumber.OrDefault | script.js:54 | `parseFloat(v) \|\| d` keeps a non-zero parse; NaN or 0 gives d; a non-zero default never yields 0 |
| JsNumber.SignedAngleUnique | script.js:230-231 | a value in (-180,180] that differs from d by whole turns is the signed angle of d |
| JsNumber.FoldTo180 | script.js:193 | the fold `a > 180 ? 360 - a : a` takes [0,360] into [0,180], and anything above 180 below 180 |
| JsNumber.Abs | script.js:192 | `Math.abs` is not negative and is x or -x |
| Wind.ShortestDiff | script.js:74-76 | the difference is the raw one or it shifted by one turn; for raw values within ±540 it lies in [-180,180] |
| Wind.ShortestDiffIsSignedAngle | script.js:74-76 | for raw values within ±540 the corrected difference is the signed angle in (-180,180], except that -180 is kept |
| Wind.ShortestDiffOfDirections | script.js:74-76 | for band directions in [0,360) the difference lies in [-180,180] and is never longer than the raw one |
| Wind.Interpolate | script.js:68-70 | equal band altitudes give the low band's wind exactly, without a division |
| Wind.InterpolateWind | script.js:66-81 | the source's step-by-step wind section, with its in-place corrections of the difference, computes exactly `Interpolate` |
| Wind.Ratio | script.js:72 | the ratio is 0 at the low band's altitude and 1 at the high band's |
| Wind.InterpolateAtLow | script.js:71-80 | at the low band's altitude (ratio 0) the result is the low band's wind |
| Wind.InterpolateAtHigh | script.js:71-80 | at the high band's altitude (ratio 1) the result is the high band's wind: the shortest difference carries the low direction onto the high one |
| Wind.BlendAtOne | script.js:74-80 | blending the whole way carries the low band's wind onto the high band's |
| Wind.InterpolateWithinBand | script.js:71-80 | inside the band the direction is in [0,360) and the speed lies between the band speeds |
| Wind.BlendWithinBand | script.js:74-80 | for any ratio in [0,1] the blended direction is in [0,360) and the speed lies between the band speeds |
| Wind.LerpBetween | script.js:78-80 | a step by a fraction in [0,1] of the difference stays between the two ends |
| Wind.RatioInUnit | script.js:72 | for a target altitude inside the band the ratio lies in [0,1] |
| Wind.InterpolateAcrossNorth | script.js:74-79 | 350 to 10 at the band's midpoint gives 0, not 180 |
| Wind.InterpolateCalm | script.js:68-81 | between two calm bands the wind is calm at every altitude |
| Wind.ExtrapolationLeavesNegativeDirection | script.js:72-79 | the unclamped ratio can leave a negative direction: 000 at 3000 ft and 350 at 4000 ft give -40 at 43000 ft |
| Wind.MagneticDir | script.js:87-89 | `(iDir + variation + 360) % 360` is in [0,360) when iDir + variation >= -360 |
| Wind.MagneticDirValue | script.js:87-89 | on [-360,360) the magnetic direction is iDir + variation, plus one turn when negative |
| WindText.Split | script.js:47 | `split('/')` gives at least one piece, and no piece contains the separator |
| WindText.JoinSplit | script.js:47 | joining the pieces with the separator gives back the original text |
| WindText.SplitJoin | script.js:47 | pieces without the separator, joined, split back into the same pieces |
| WindText.SplitNoSeparator | script.js:47-48 | text without a separator is a single piece |
| WindText.SplitAtSeparator | script.js:47-49 | the text before the first separator is the first piece, and the rest is split further |
| WindText.ParseWind | script.js:46 | an empty text is the calm wind (0,0) |
| WindText.ParseWindDirectionOnly | script.js:48 | a text without '/' is a direction with speed 0, the direction falling back to 0 |
| WindText.ParseWindPair | script.js:49 | "a/b..." reads the direction from a and the speed from the text up to the next '/', each falling back to 0 |
| Drift.DriftFactor | script.js:198-216 | the factor is a clock code (0, 1/3, 1/2, 3/4, 1); it is 0 exactly when the angle is <= 0 and 1 exactly when it is >= 53 |
| Drift.DriftFactorMonotonic | script.js:201-216 | a larger acute angle never gets a smaller factor |
| Drift.DriftFactorBoundaries | script.js:201-216 | each lower threshold (53, 38, 23) is inclusive, and the last bucket is open at 0 |
| Drift.AcuteAngle | script.js:192-196 | for course and wind within a turn of each other the acute angle lies in [0,90] |
| Drift.AcuteAngleIsAxisAngle | script.js:192-196 | the two folds amount to the angle between the course line and the relative wind reduced to (-180,180] |
| Drift.ReciprocalSameAcuteAngle | script.js:108-112 | the reciprocal course `(course + 180) % 360` makes the same acute angle with the wind |
| Drift.CalculateDrift | script.js:191-226 | the factor is a clock code and the acute angle is in [0,90]; acute angle 0 gives single drift 0; the single drift is in [0, maxDrift], and equals maxDrift from 53 degrees up |
| Drift.OutboundCorrection | script.js:118-127 | 3 × single drift above 30 degrees, 2 × at or below (so exactly 30 takes 2×) |
| Drift.NoDriftWithoutMaxDrift | script.js:219 | a maximum drift of 0 gives single drift 0 on any course |
| Drift.OutboundCorrectionBounds | script.js:118-127 | the correction is between 0 and 3 × maxDrift, and it is 0 exactly when the single drift is |
| Heading.RelativeWind | script.js:229-231 | the relative wind lies in (-180,180] |
| Heading.CorrectedHeading | script.js:233-239 | the corrected heading lies in [0,360) whenever course ± correction >= -360 |
| Heading.ApplyCorrection | script.js:228-240 | the two `while` loops and the sign choice compute exactly `CorrectedHeading` |
| Heading.CorrectsIntoWind | script.js:233-238 | for a correction in [0,180) the heading turns from the course by exactly the correction, towards the wind's side |
| Heading.ZeroCorrection | script.js:233-239 | a correction of 0 returns a course in [0,360) unchanged |
| Heading.CourseNorthWindEast | script.js:228-239 | course 360 with wind 090 has relative wind +90, so the correction is added |
| Timing.TimeFactor | script.js:161-173 | the time factor is in [0,1] and is 0 exactly when the rule angle is <= 0 |
| Timing.OutboundTiming | script.js:139-182 | tailwind iff angleDiff < 90; angleDiff in [0,180] and rule angle in [0,90]; a tailwind shortens the base time by at most iSpd, a headwind lengthens it by at most iSpd; acuteDiff 90 gives factor 0 and the base time |
| Timing.FoldAngleDiff | script.js:139-140 | the `while` loop equals one fold at 180; above 540 it leaves a value below -180 |
| Timing.ComputeTiming | script.js:139-182 | the step-by-step timing computes exactly `OutboundTiming` |
| Timing.AngleDiffIsCircularDistance | script.js:139-147 | angleDiff is the circular distance between course and wind, and it is a tailwind iff that distance is below 90 |
| Timing.SquareWindIsHeadwind | script.js:147 | course 000 with wind 090 (square to the course) counts as a headwind and leaves the base time unchanged |
| Timing.CalmKeepsBaseTime | script.js:175-182 | with a wind speed of 0 the outbound time is the base time on any course |
| Format.Decimal | script.js:243 | `toString` of a whole number gives digits with no leading zero, one digit below 10 and at most two below 100 |
| Format.Pad0 | script.js:242-244 | `padStart(3, '0')` gives length max(3, digits), with the digits at the end and zeros before them |
| Format.ValueOfDecimal | script.js:243 | the written digits denote the number |
| Format.Pad0RoundTrip | script.js:242-244 | the padded text is all digits and still denotes the number |
| Format.Pad0Examples | script.js:242-244 | 0, 5, 90, 270 and 1234 become "000", "005", "090", "270" and "1234" |
| Hold.ParseInputs | script.js:54-64 | after `\|\| 120` and `\|\| 60` neither the airspeed nor the base time is 0; NaN or 0 gives 120 and 60 |
| Hold.MaxDrift | script.js:94-95 | the 1-in-60 maximum drift is iSpd·60/tas rounded to the nearest integer, and is not negative for a calm or positive wind and a positive airspeed |
| Hold.MaxDriftAtDefaultTas | script.js:94-95 | at the default 120 knots the maximum drift is round(iSpd / 2) |
| Hold.OutboundCourse | script.js:108 | the reciprocal lies in [0,360) for every inbound course >= -180 |
| Hold.OutboundCourseValue | script.js:108 | for an inbound course in [0,180) the reciprocal is course + 180, and in [180,540) it is course - 180 |
| Hold.Gate2Bearing | script.js:429-430 | for an inbound course in [0,360) the gate-2 bearing is in [0,360) |
| Hold.Gate2SixtyLeft | script.js:429-430 | gate 2 lies exactly 60 degrees left of the inbound course |
| Hold.TimeFactorMatchesDriftTable | script.js:161-173 | the two clock-code tables agree bucket for bucket |
| Hold.Hold | script.js:52-189 | equal band altitudes show the low band's wind rounded; the magnetic direction is in [0,360) when iDir + variation >= -360 |
| Hold.HoldFromTextDefaultAirspeed | script.js:94-95 | an empty, unreadable or zero airspeed field gives a maximum drift of round(iSpd / 2) |
| Hold.HoldFromTextCalm | script.js:45-64 | with both wind fields empty there is no drift, no correction, and the outbound time is the base time |
| Hold.HoldCalm | script.js:52-189 | calm band winds give the calm rounded wind, no drift, no correction and the base time, at any altitude and airspeed |
| Hold.CalculateAll | script.js:52-189 | the step-by-step `calculateAll` computes exactly the closed-form `Hold` |
| Hold.HoldWindRanges | script.js:66-95 | for in-range inputs iDir is in [0,360], iSpd >= 0, the maximum drift >= 0 and the magnetic direction in [0,360) |
| Hold.LegsAgree | script.js:100-127 | for a course and wind in [0,360) the reciprocal course is in [0,360) and gives the same drift result; the correction is between 0 and 3 × maxDrift |
| Hold.HoldLegs | script.js:100-127 | the outbound course is in [0,360); the outbound drift result equals the inbound one, with acute angle in [0,90]; the correction is between 0 and 3 × maxDrift |
| Hold.HoldTimingRanges | script.js:136-182 | angleDiff is in [0,180], the rule angle in [0,90] and gate 2 in [0,360) |
| Hold.HoldHeadingRanges | script.js:104-133 | for a maximum drift of at most 120 both headings are in [0,360) |
| Hold.WorkedExample | script.js:52-189 | 270/20 at 3000 and 300/40 at 6000, target 5000, variation 10, course 090, 120 kt, 60 s give 290/33, 300 magnetic, max drift 17, single drift 9, headings 081 and 288, correction 18, 93 s and gate 2 at 030 |
| Hold.AllFieldsUnreadable | script.js:45-189 | with every field unreadable: calm wind, no drift, headings 000 and 180, 60 s and gate 2 at 300 |

## Left out

- DOM wiring is left out. This covers element lookups, event listeners, the initial call and every `textContent` write (lines 1-43, 85, 90, 96, 101, 105, 109, 129-133, 184). It is I/O only.
- `drawHold` and `drawArrowHead` are left out apart from the gate-2 bearing. They are canvas drawing with trigonometry and device-pixel scaling, and have no contract beyond their constants.
- `parseFloat` is not modelled. It is a library routine, so it is the parameter `parse: string -> Option<real>`, where `None` stands for NaN. Any 0 or NaN default is modelled by `OrDefault`.
- Floating point is not modelled. All numbers are exact reals, so IEEE-754 rounding (1/3 at lines 170 and 211, for example), Infinity and -0 do not appear.
- Display strings are left out: `factorText`, `logText`, `toFixed(1)` and the template strings.
- Format.Pad0: covers only whole numbers that are not negative. The page also pads `magDir` (line 90) and the outbound course (line 109), which are fractional when the variation or the course is. `toString` of a fraction is not modelled.
- Hold.HoldWindRanges: states iDir in [0,360], not [0,360). An interpolated direction just below 360 rounds to 360, and the source never wraps it.
- Hold.HoldHeadingRanges: holds only while the maximum drift is at most 120 degrees. For larger drifts `course - correction` can fall below -360, and the source's `% 360` then gives a negative heading.
- Hold.ParseInputs: a negative airspeed or base time is kept as typed, just as in the source. Only 0 and NaN are defaulted, so the range lemmas require a positive airspeed.
- Hold.InRange: the range lemmas cover a target altitude inside the band only. The source does not clamp the ratio (line 72), so extrapolation beyond the band can give a negative wind direction (`ExtrapolationLeavesNegativeDirection`), which `pad0` then shows with a minus sign.
- Timing.OutboundTiming: its range clause needs |course - wind| <= 360. The source never wraps the inbound course (line 93), so a course outside [0,360) can leave angleDiff below -180 (see `FoldAngleDiff`).
