/** The wind interpolator: the wind at the target altitude, taken between the winds of a
    low and a high altitude band, then rounded to whole degrees and knots and turned into a
    magnetic direction (script.js, lines 66-89). */
module Wind {
  import opened JsNumber

  /** A wind as the source keeps it: the direction it blows from, in degrees, and its
      speed in knots. Neither is range-checked by the source. */
  datatype Wind = Wind(dir: real, spd: real)

  /** The direction difference `hDir - lDir` after the two sequential corrections of
      lines 74-76: subtract a turn above 180, then add a turn below -180. Both -180 and
      180 survive, so the result lies in the closed range [-180,180]. */
  function ShortestDiff(lDir: real, hDir: real): (d: real)
    ensures d == hDir - lDir || d == hDir - lDir - 360.0 || d == hDir - lDir + 360.0
    ensures -540.0 <= hDir - lDir <= 540.0 ==> -180.0 <= d <= 180.0
  {
    var d1 := if hDir - lDir > 180.0 then hDir - lDir - 360.0 else hDir - lDir;
    if d1 < -180.0 then d1 + 360.0 else d1
  }

  /** The corrected difference is the signed angle in (-180,180] of the raw difference,
      except that -180 is kept rather than turned into 180. */
  lemma ShortestDiffIsSignedAngle(lDir: real, hDir: real)
    requires -540.0 <= hDir - lDir <= 540.0
    ensures ShortestDiff(lDir, hDir) == SignedAngle(hDir - lDir) || ShortestDiff(lDir, hDir) == -180.0
  {
    var d0 := hDir - lDir;
    var d := ShortestDiff(lDir, hDir);
    if d != -180.0 {
      SignedAngleUnique(d0, d, if d0 > 180.0 then 1 else if d == d0 + 360.0 then -1 else 0);
    }
  }

  /** The interpolated wind at `tAlt`, before rounding (lines 68-81). Equal band
      altitudes give the low band's wind unchanged, without dividing; otherwise the wind
      is blended at the unclamped ratio `(tAlt - lAlt) / (hAlt - lAlt)`. */
  function Interpolate(tAlt: real, lAlt: real, hAlt: real, low: Wind, high: Wind): (w: Wind)
    ensures hAlt == lAlt ==> w == low
  {
    if hAlt == lAlt then low else Blend(low, high, Ratio(tAlt, lAlt, hAlt))
  }

  /** The wind a fraction `ratio` of the way from the low band to the high band (lines
      74-80): the shortest direction difference and the speed difference are scaled by
      `ratio`, and the direction goes through `(dir + 360) % 360`. */
  function Blend(low: Wind, high: Wind, ratio: real): Wind {
    Wind(Rem360(Lerp(low.dir, ShortestDiff(low.dir, high.dir), ratio) + 360.0),
         Lerp(low.spd, high.spd - low.spd, ratio))
  }

  /** The wind section of `calculateAll` as the source runs it (lines 66-81): the
      direction difference is corrected in place by two sequential `if`s and the wind
      direction is reassigned through `(windDir + 360) % 360`. */
  method InterpolateWind(tAlt: real, lAlt: real, hAlt: real, low: Wind, high: Wind)
    returns (windDir: real, windSpd: real)
    ensures Wind(windDir, windSpd) == Interpolate(tAlt, lAlt, hAlt, low, high)
  {
    if hAlt == lAlt {
      windDir := low.dir;
      windSpd := low.spd;
    } else {
      var ratio := (tAlt - lAlt) / (hAlt - lAlt);
      assert ratio == Ratio(tAlt, lAlt, hAlt);
      var diffDir := high.dir - low.dir;
      if diffDir > 180.0 {
        diffDir := diffDir - 360.0;
      }
      if diffDir < -180.0 {
        diffDir := diffDir + 360.0;
      }
      assert diffDir == ShortestDiff(low.dir, high.dir);
      windDir := low.dir + diffDir * ratio;
      LerpIsLinearStep(low.dir, diffDir, ratio);
      windDir := Rem360(windDir + 360.0);
      windSpd := low.spd + (high.spd - low.spd) * ratio;
      LerpIsLinearStep(low.spd, high.spd - low.spd, ratio);
    }
  }

  /** `start + delta * ratio`, the linear step both wind components take. */
  function Lerp(start: real, delta: real, ratio: real): real {
    start + delta * ratio
  }

  lemma LerpIsLinearStep(start: real, delta: real, ratio: real)
    ensures Lerp(start, delta, ratio) == start + delta * ratio
  {
  }

  /** The position of `tAlt` between the two band altitudes (0 at the low band, 1 at the
      high band, outside [0,1] when extrapolating). */
  function Ratio(tAlt: real, lAlt: real, hAlt: real): (r: real)
    requires hAlt != lAlt
    ensures tAlt == lAlt ==> r == 0.0
    ensures tAlt == hAlt ==> r == 1.0
  {
    QuotientSelf(hAlt - lAlt);
    (tAlt - lAlt) / (hAlt - lAlt)
  }

  /** The magnetic wind direction `(iDir + variation + 360) % 360` (lines 87-89): the
      rounded true direction turned by the variation, in [0,360) whenever
      `iDir + variation >= -360`. */
  function MagneticDir(iDir: int, variation: real): (m: real)
    ensures iDir as real + variation >= -360.0 ==> 0.0 <= m < 360.0
  {
    Rem360(iDir as real + variation + 360.0)
  }

  /** On [-360,360) the magnetic direction is `iDir + variation` brought into [0,360)
      by adding at most one turn. */
  lemma MagneticDirValue(iDir: int, variation: real)
    requires -360.0 <= iDir as real + variation < 360.0
    ensures var x := iDir as real + variation;
            MagneticDir(iDir, variation) == if x < 0.0 then x + 360.0 else x
  {
    var x := iDir as real + variation;
    if x < 0.0 {
      Rem360Normalises(x + 360.0, x + 360.0, 0);
    } else {
      Rem360Fixed(x);
    }
  }

  predicate IsDirection(d: real) {
    0.0 <= d < 360.0
  }

  /** For directions in [0,360) the difference never needs more than one correction and
      takes the short way round. */
  lemma ShortestDiffOfDirections(lDir: real, hDir: real)
    requires IsDirection(lDir) && IsDirection(hDir)
    ensures -180.0 <= ShortestDiff(lDir, hDir) <= 180.0
    ensures Abs(ShortestDiff(lDir, hDir)) <= Abs(hDir - lDir)
  {
  }

  /** At the low band's altitude the interpolation returns the low band's wind. */
  lemma {:induction false} InterpolateAtLow(lAlt: real, hAlt: real, low: Wind, high: Wind)
    requires IsDirection(low.dir)
    ensures Interpolate(lAlt, lAlt, hAlt, low, high) == low
  {
    if hAlt != lAlt {
      assert Ratio(lAlt, lAlt, hAlt) == 0.0;
      Rem360Fixed(low.dir);
    }
  }

  /** At the high band's altitude the interpolation returns the high band's wind: the
      shortest difference carries the low direction exactly onto the high one. */
  lemma {:induction false} InterpolateAtHigh(lAlt: real, hAlt: real, low: Wind, high: Wind)
    requires hAlt != lAlt
    requires IsDirection(low.dir) && IsDirection(high.dir)
    ensures Interpolate(hAlt, lAlt, hAlt, low, high) == high
  {
    BlendAtOne(low, high);
  }

  lemma {:induction false} BlendAtOne(low: Wind, high: Wind)
    requires IsDirection(low.dir) && IsDirection(high.dir)
    ensures Blend(low, high, 1.0) == high
  {
    var d := ShortestDiff(low.dir, high.dir);
    assert Lerp(low.dir, d, 1.0) == low.dir + d;
    assert Lerp(low.spd, high.spd - low.spd, 1.0) == high.spd;
    Rem360Normalises(low.dir + d + 360.0, high.dir,
                     if d == high.dir - low.dir then 1 else if d > high.dir - low.dir then 2 else 0);
  }

  /** Inside the band (and for directions in [0,360)) the interpolated direction lies in
      [0,360) and the speed lies between the two bands' speeds. */
  lemma {:induction false} InterpolateWithinBand(tAlt: real, lAlt: real, hAlt: real, low: Wind, high: Wind)
    requires hAlt != lAlt
    requires lAlt <= tAlt <= hAlt || hAlt <= tAlt <= lAlt
    requires IsDirection(low.dir) && IsDirection(high.dir)
    ensures IsDirection(Interpolate(tAlt, lAlt, hAlt, low, high).dir)
    ensures var s := Interpolate(tAlt, lAlt, hAlt, low, high).spd;
            (low.spd <= s <= high.spd) || (high.spd <= s <= low.spd)
  {
    RatioInUnit(tAlt, lAlt, hAlt);
    BlendWithinBand(low, high, Ratio(tAlt, lAlt, hAlt));
  }

  lemma {:induction false} BlendWithinBand(low: Wind, high: Wind, ratio: real)
    requires 0.0 <= ratio <= 1.0
    requires IsDirection(low.dir) && IsDirection(high.dir)
    ensures IsDirection(Blend(low, high, ratio).dir)
    ensures var s := Blend(low, high, ratio).spd;
            (low.spd <= s <= high.spd) || (high.spd <= s <= low.spd)
  {
    var d := ShortestDiff(low.dir, high.dir);
    LerpBetween(low.dir, d, ratio);
    LerpBetween(low.spd, high.spd - low.spd, ratio);
  }

  /** A step by a fraction in [0,1] of `delta` stays between `start` and `start + delta`. */
  lemma LerpBetween(start: real, delta: real, ratio: real)
    requires 0.0 <= ratio <= 1.0
    ensures (start <= Lerp(start, delta, ratio) <= start + delta)
         || (start + delta <= Lerp(start, delta, ratio) <= start)
  {
    ProductBetween(delta, ratio);
  }

  lemma RatioInUnit(tAlt: real, lAlt: real, hAlt: real)
    requires hAlt != lAlt
    requires lAlt <= tAlt <= hAlt || hAlt <= tAlt <= lAlt
    ensures 0.0 <= Ratio(tAlt, lAlt, hAlt) <= 1.0
  {
    if hAlt > lAlt {
      QuotientInUnit(tAlt - lAlt, hAlt - lAlt);
    } else {
      assert Ratio(tAlt, lAlt, hAlt) == (lAlt - tAlt) / (lAlt - hAlt);
      QuotientInUnit(lAlt - tAlt, lAlt - hAlt);
    }
  }

  lemma QuotientInUnit(a: real, b: real)
    requires 0.0 <= a <= b && b > 0.0
    ensures 0.0 <= a / b <= 1.0
  {
  }

  lemma QuotientSelf(b: real)
    requires b != 0.0
    ensures b / b == 1.0
  {
  }

  lemma ProductBetween(x: real, t: real)
    requires 0.0 <= t <= 1.0
    ensures (0.0 <= x * t <= x) || (x <= x * t <= 0.0)
  {
    if x >= 0.0 {
      assert x * (1.0 - t) >= 0.0;
    } else {
      assert (-x) * (1.0 - t) >= 0.0;
      assert (-x) * t >= 0.0;
    }
  }

  /** Between two calm bands the wind is calm at every altitude. */
  lemma InterpolateCalm(tAlt: real, lAlt: real, hAlt: real)
    ensures Interpolate(tAlt, lAlt, hAlt, Wind(0.0, 0.0), Wind(0.0, 0.0)) == Wind(0.0, 0.0)
  {
    if hAlt != lAlt {
      var ratio := Ratio(tAlt, lAlt, hAlt);
      assert ShortestDiff(0.0, 0.0) == 0.0;
      assert Lerp(0.0, 0.0, ratio) == 0.0;
      Rem360Normalises(360.0, 0.0, 1);
    }
  }

  /** The ratio is not clamped, and the direction is brought into range by one
      `(dir + 360) % 360` only: extrapolating far enough beyond the band leaves a negative
      direction. From 000 at 3000 ft to 350 at 4000 ft, at 43000 ft the ratio is 40 and
      the direction is `(0 - 10 * 40 + 360) % 360 = -40`. */
  lemma ExtrapolationLeavesNegativeDirection(low: Wind, high: Wind)
    requires low.dir == 0.0 && high.dir == 350.0
    ensures Interpolate(43000.0, 3000.0, 4000.0, low, high).dir == -40.0
  {
    assert ShortestDiff(0.0, 350.0) == -10.0;
    assert Ratio(43000.0, 3000.0, 4000.0) == 40.0;
    LerpIsLinearStep(0.0, -10.0, 40.0);
    assert Trunc360(-40.0) == 0;
  }

  /** Interpolating from 350 to 10 degrees half-way up the band gives north, not south. */
  lemma InterpolateAcrossNorth(low: Wind, high: Wind)
    requires low.dir == 350.0 && high.dir == 10.0
    ensures Interpolate(4000.0, 3000.0, 5000.0, low, high).dir == 0.0
  {
    assert ShortestDiff(350.0, 10.0) == 20.0;
    assert Ratio(4000.0, 3000.0, 5000.0) == 0.5;
    assert 350.0 + 20.0 * 0.5 + 360.0 == 720.0;
    Rem360Normalises(720.0, 0.0, 2);
  }
}
