/**
  The discrete rules inside the Sun-position ephemeris and the standard
  atmosphere: the day fraction of `datenum`, the range normalisations, the
  quadrant choice of the right ascension, the hour-angle wrap, the azimuth
  branch, the temperature fallback, the refraction bands and the season of
  `stdatm`.

  The transcendental values the source computes with numpy (arctan, sin, tan,
  exp) are inputs here: each operation takes the value the numeric library
  returned, constrained only by the facts the rule relies on (its range and
  sign). Python's `%` on floats is the floored modulo `PyMod`.
*/
module Ephemeris {
  import opened Wrappers

  /** numpy's `np.pi`. */
  const Pi: real := 3.141592653589793

  /** The fractional part `y - floor(y)`. */
  function Frac(y: real): (f: real)
    ensures 0.0 <= f < 1.0
  {
    y - y.Floor as real
  }

  /** Scaling a fraction in [0, 1) by a positive factor keeps it below the factor. */
  lemma ScaleFraction(f: real, m: real)
    requires m > 0.0 && 0.0 <= f < 1.0
    ensures 0.0 <= f * m < m
  {
  }

  /** `x % m` for floats: the remainder takes the sign of the divisor, so it
      lies in [0, m) for a positive modulus, and `x` is `x // m` whole moduli
      plus the remainder. */
  function PyMod(x: real, m: real): (r: real)
    requires m > 0.0
    ensures 0.0 <= r < m
    ensures x - r == (x / m).Floor as real * m
  {
    var q := x / m;
    var f := Frac(q);
    ScaleFraction(f, m);
    f * m
  }

  function DegToRad(x: real): real
  {
    x * Pi / 180.0
  }

  // ---------------------------------------------------------------------------
  // datenum

  /** The ordinal of 9999-12-31, the last day a Python `datetime` can hold. */
  const MaxOrdinal: int := 3652059

  /** A Python `datetime`, by its proleptic Gregorian day ordinal and its time of day. */
  datatype DateTime = DateTime(ordinal: int, hour: int, minute: int, second: int, microsecond: int)
  {
    /** The ranges the `datetime` class enforces. */
    predicate Valid()
    {
      1 <= ordinal <= MaxOrdinal && 0 <= hour < 24 && 0 <= minute < 60 && 0 <= second < 60
      && 0 <= microsecond < 1000000
    }
  }

  /** Adding 366 days overflows the `datetime` range. */
  datatype DateError = Overflow

  /** `(dt - midnight).seconds`. */
  function SecondsOfDay(dt: DateTime): int
  {
    3600 * dt.hour + 60 * dt.minute + dt.second
  }

  /** `frac_seconds + frac_microseconds`: the elapsed part of the day. */
  function DayFraction(dt: DateTime): real
  {
    SecondsOfDay(dt) as real / 86400.0 + dt.microsecond as real / 86400000000.0
  }

  /** One `Dnum` entry: the ordinal of the date 366 days later, plus the day fraction. */
  function DatenumValue(dt: DateTime): real
  {
    (dt.ordinal + 366) as real + DayFraction(dt)
  }

  /** The day fraction of a valid `datetime` lies in [0, 1). */
  lemma DayFractionRange(dt: DateTime)
    requires dt.Valid()
    ensures 0.0 <= DayFraction(dt) < 1.0
  {
    assert 0 <= SecondsOfDay(dt) <= 86399;
    assert dt.microsecond as real / 86400000000.0 < 1.0 / 86400.0;
  }

  /** A `datenum` value splits into its whole day number and the day fraction,
      and `datenum(...) % 1 * 24` (the `Hour` of `sunPosition`) is the time of day
      in hours. */
  lemma DatenumSplits(dt: DateTime)
    requires dt.Valid()
    ensures DatenumValue(dt).Floor == dt.ordinal + 366
    ensures PyMod(DatenumValue(dt), 1.0) == DayFraction(dt)
    ensures PyMod(DatenumValue(dt), 1.0) * 24.0 ==
      dt.hour as real + dt.minute as real / 60.0 + dt.second as real / 3600.0 + dt.microsecond as real / 3600000000.0
  {
    DayFractionRange(dt);
  }

  /** `datenum` of one value or of a sequence of values. */
  datatype Dnum = Scalar(value: real) | Vector(values: seq<real>)

  /** `datenum(dt)`: one value per date, a scalar when there is exactly one
      date; an overflow when a date lies within 366 days of the end of year 9999. */
  method Datenum(dts: seq<DateTime>) returns (r: Result<Dnum, DateError>)
    requires forall i :: 0 <= i < |dts| ==> dts[i].Valid()
    ensures r.Err? <==> exists i :: 0 <= i < |dts| && dts[i].ordinal + 366 > MaxOrdinal
    ensures r.Ok? && |dts| == 1 ==> r.value == Scalar(DatenumValue(dts[0]))
    ensures r.Ok? && |dts| != 1 ==> r.value.Vector? && |r.value.values| == |dts|
    ensures r.Ok? && |dts| != 1 ==> forall i :: 0 <= i < |dts| ==> r.value.values[i] == DatenumValue(dts[i])
  {
    var dnum: seq<real> := [];
    for j := 0 to |dts|
      invariant |dnum| == j
      invariant forall i :: 0 <= i < j ==> dts[i].ordinal + 366 <= MaxOrdinal
      invariant forall i :: 0 <= i < j ==> dnum[i] == DatenumValue(dts[i])
    {
      if dts[j].ordinal + 366 > MaxOrdinal {
        return Err(Overflow);
      }
      var fracSeconds := SecondsOfDay(dts[j]) as real / (24.0 * 60.0 * 60.0);
      var fracMicroseconds := dts[j].microsecond as real / (24.0 * 60.0 * 60.0 * 1000000.0);
      dnum := dnum + [(dts[j].ordinal + 366) as real + fracSeconds + fracMicroseconds];
    }
    if |dts| == 1 {
      r := Ok(Scalar(dnum[0]));
    } else {
      r := Ok(Vector(dnum));
    }
  }

  // ---------------------------------------------------------------------------
  // Ecliptic and celestial coordinates

  /** Mean longitude in degrees: `(280.460 + 0.9856474 * Time) % 360`, then 360
      added to a negative value. */
  function MeanLongitude(time: real): real
  {
    var l := PyMod(280.460 + 0.9856474 * time, 360.0);
    if l < 0.0 then l + 360.0 else l
  }

  /** The mean longitude lies in [0, 360), and the fix for negative values never
      applies, because the floored `%` is never negative. */
  lemma MeanLongitudeRange(time: real)
    ensures 0.0 <= MeanLongitude(time) < 360.0
    ensures MeanLongitude(time) == PyMod(280.460 + 0.9856474 * time, 360.0)
  {
  }

  /** What the right-ascension rule needs of `t = arctan(num / den)`: within
      [-pi/2, pi/2], strictly inside when `den` is not zero, and negative exactly
      when the quotient is (with `den == 0`, `num / den` is an infinity of the
      sign of `num`). Both being zero (a NaN) is excluded. */
  predicate IsArctanOfRatio(t: real, num: real, den: real)
  {
    && (num != 0.0 || den != 0.0)
    && -Pi / 2.0 <= t <= Pi / 2.0
    && (den != 0.0 ==> -Pi / 2.0 < t < Pi / 2.0)
    && (t < 0.0 <==> (num < 0.0 && den >= 0.0) || (num > 0.0 && den < 0.0))
  }

  /** Right ascension from `arctan(num / den)`: add pi when `den < 0`, add 2 pi
      when `den >= 0` and `num < 0`, otherwise keep it. */
  function RightAscension(num: real, den: real, atanRatio: real): real
  {
    if den < 0.0 then atanRatio + Pi
    else if den >= 0.0 && num < 0.0 then atanRatio + 2.0 * Pi
    else atanRatio
  }

  /** The right ascension lies in [0, 2 pi), in the quadrant of the point
      (den, num): the left half-plane for `den < 0`, the fourth quadrant for
      `den >= 0` and `num < 0`, the first quadrant otherwise. */
  lemma RightAscensionQuadrant(num: real, den: real, t: real)
    requires IsArctanOfRatio(t, num, den)
    ensures var ra := RightAscension(num, den, t);
      && 0.0 <= ra < 2.0 * Pi
      && (den < 0.0 ==> Pi / 2.0 < ra < 3.0 * Pi / 2.0)
      && (den >= 0.0 && num < 0.0 ==> 3.0 * Pi / 2.0 <= ra < 2.0 * Pi)
      && (den >= 0.0 && num >= 0.0 ==> 0.0 <= ra <= Pi / 2.0)
  {
  }

  /** The loop filling `ra[l]` for every date. */
  method RightAscensions(num: seq<real>, den: seq<real>, atanRatio: seq<real>) returns (ra: seq<real>)
    requires |num| == |den| == |atanRatio|
    requires forall l :: 0 <= l < |num| ==> IsArctanOfRatio(atanRatio[l], num[l], den[l])
    ensures |ra| == |num|
    ensures forall l :: 0 <= l < |ra| ==> ra[l] == RightAscension(num[l], den[l], atanRatio[l])
    ensures forall l :: 0 <= l < |ra| ==> 0.0 <= ra[l] < 2.0 * Pi
  {
    var a := new real[|num|](_ => 0.0);
    for l := 0 to |num|
      invariant forall k :: 0 <= k < l ==> a[k] == RightAscension(num[k], den[k], atanRatio[k])
      invariant forall k :: 0 <= k < l ==> 0.0 <= a[k] < 2.0 * Pi
    {
      RightAscensionQuadrant(num[l], den[l], atanRatio[l]);
      if den[l] < 0.0 {
        a[l] := atanRatio[l] + Pi;
      } else if den[l] >= 0.0 && num[l] < 0.0 {
        a[l] := atanRatio[l] + 2.0 * Pi;
      } else {
        a[l] := atanRatio[l];
      }
    }
    ra := a[..];
  }

  // ---------------------------------------------------------------------------
  // Local coordinates

  /** Greenwich mean sidereal time in hours. */
  function Gmst(time: real, hour: real): real
  {
    PyMod(6.697375 + 0.0657098242 * time + hour, 24.0)
  }

  /** Local mean sidereal time in radians for an east longitude in degrees. */
  function Lmst(gmst: real, longitude: real): real
  {
    DegToRad(PyMod(gmst + longitude / 15.0, 24.0) * 15.0)
  }

  /** The hour-angle wrap: one 2 pi added below -pi or removed above pi. */
  function WrapHourAngle(ha: real): real
  {
    if ha < -Pi then ha + 2.0 * Pi
    else if ha > Pi then ha - 2.0 * Pi
    else ha
  }

  /** A single shift brings a raw hour angle in (-3 pi, 3 pi) into [-pi, pi]
      (both ends included: -pi and pi are left alone), and leaves one already
      there unchanged. */
  lemma WrapHourAngleRange(ha: real)
    requires -3.0 * Pi < ha < 3.0 * Pi
    ensures -Pi <= WrapHourAngle(ha) <= Pi
    ensures -Pi <= ha <= Pi ==> WrapHourAngle(ha) == ha
    ensures WrapHourAngle(ha) == ha || WrapHourAngle(ha) == ha + 2.0 * Pi || WrapHourAngle(ha) == ha - 2.0 * Pi
  {
  }

  /** The raw hour angle `lmst - ra` always needs at most one shift: the local
      sidereal time and the right ascension both lie in [0, 2 pi). */
  lemma HourAngleInRange(gmst: real, longitude: real, ra: real)
    requires 0.0 <= ra < 2.0 * Pi
    ensures 0.0 <= Lmst(gmst, longitude) < 2.0 * Pi
    ensures -Pi <= WrapHourAngle(Lmst(gmst, longitude) - ra) <= Pi
  {
    var lm := Lmst(gmst, longitude);
    WrapHourAngleRange(lm - ra);
  }

  /** The loop wrapping `ha[l]` in place. */
  method WrapHourAngles(ha: array<real>)
    modifies ha
    ensures forall l :: 0 <= l < ha.Length ==> ha[l] == WrapHourAngle(old(ha[l]))
  {
    for l := 0 to ha.Length
      invariant forall k :: 0 <= k < l ==> ha[k] == WrapHourAngle(old(ha[k]))
      invariant forall k :: l <= k < ha.Length ==> ha[k] == old(ha[k])
    {
      if ha[l] < -Pi {
        ha[l] := ha[l] + 2.0 * Pi;
      } else if ha[l] > Pi {
        ha[l] := ha[l] - 2.0 * Pi;
      }
    }
  }

  /** `PosCond`: `sin(dec) - sin(elev) * sin(lat) >= 0`. */
  function PosCond(sinDec: real, sinElev: real, sinLat: real): bool
  {
    sinDec - sinElev * sinLat >= 0.0
  }

  /** The azimuth branch: 2 pi added when `PosCond` holds and `sin(azim) < 0`,
      `pi - azim` when it fails, unchanged otherwise. */
  function CorrectAzimuth(azim: real, posCond: bool, sinNegative: bool): real
  {
    if posCond && sinNegative then azim + 2.0 * Pi
    else if !posCond then Pi - azim
    else azim
  }

  /** From an arcsine value in [-pi/2, pi/2], whose sine is negative exactly
      when it is, the corrected azimuth lies in [0, 2 pi): in the northern half
      [0, pi/2] or [3 pi/2, 2 pi) when `PosCond` holds, in the southern half
      [pi/2, 3 pi/2] when it fails. */
  lemma AzimuthRange(azim: real, posCond: bool, sinNegative: bool)
    requires -Pi / 2.0 <= azim <= Pi / 2.0
    requires sinNegative <==> azim < 0.0
    ensures var z := CorrectAzimuth(azim, posCond, sinNegative);
      && 0.0 <= z < 2.0 * Pi
      && (posCond ==> 0.0 <= z <= Pi / 2.0 || 3.0 * Pi / 2.0 <= z)
      && (!posCond ==> Pi / 2.0 <= z <= 3.0 * Pi / 2.0)
  {
  }

  /** The loop correcting `azim[l]` in place; `sinNegative[l]` is the sign test
      on `np.sin(azim[l])` for the value before the correction. */
  method CorrectAzimuths(azim: array<real>, posCond: seq<bool>, sinNegative: seq<bool>)
    requires |posCond| == |sinNegative| == azim.Length
    modifies azim
    ensures forall l :: 0 <= l < azim.Length ==>
      azim[l] == CorrectAzimuth(old(azim[l]), posCond[l], sinNegative[l])
  {
    for l := 0 to azim.Length
      invariant forall k :: 0 <= k < l ==> azim[k] == CorrectAzimuth(old(azim[k]), posCond[k], sinNegative[k])
      invariant forall k :: l <= k < azim.Length ==> azim[k] == old(azim[k])
    {
      if posCond[l] && sinNegative[l] {
        azim[l] := azim[l] + 2.0 * Pi;
      } else if !posCond[l] {
        azim[l] := Pi - azim[l];
      }
    }
  }

  // ---------------------------------------------------------------------------
  // Refraction

  /** Absolute air temperature in kelvin: 25 degrees Celsius for a reading below
      -99 or above 90 (the default `Tamb = 999` included), the reading otherwise. */
  function AirTemperature(tamb: real): (t: real)
    ensures t > 0.0
  {
    if tamb < -99.0 || tamb > 90.0 then 25.0 + 273.15 else tamb + 273.15
  }

  /** The temperature lies in [174.15, 363.15] kelvin, and is 298.15 exactly for
      out-of-range readings. */
  lemma AirTemperatureRange(tamb: real)
    ensures 174.15 <= AirTemperature(tamb) <= 363.15
    ensures tamb < -99.0 || tamb > 90.0 ==> AirTemperature(tamb) == 298.15
    ensures -99.0 <= tamb <= 90.0 ==> AirTemperature(tamb) == tamb + 273.15
  {
  }

  /** The pressure/temperature ratio: the standard-atmosphere pressure when no
      measurement is given (`Pres == 999`), the measured one otherwise. */
  function PressureTemperatureRatio(pres: real, tamb: real, stdPressure: real): real
  {
    if pres == 999.0 then stdPressure / AirTemperature(tamb) * 1000.0
    else pres / AirTemperature(tamb) * 1000.0
  }

  /** Which refraction formula applies to an elevation in degrees. */
  datatype Band = LowElevation | HighElevation | Uncorrected

  /** `g1`: [-2.5, 15) degrees; `g2`: [15, 90) degrees; no correction elsewhere. */
  function RefractionBand(elevDeg: real): Band
  {
    if elevDeg < 15.0 && elevDeg >= -2.5 then LowElevation
    else if elevDeg >= 15.0 && elevDeg < 90.0 then HighElevation
    else Uncorrected
  }

  /** `np.rad2deg`. */
  function RadToDeg(x: real): real
  {
    x * 180.0 / Pi
  }

  /** The denominator of the low-elevation form has no real root. */
  lemma LowDenominatorPositive(e: real)
    ensures 1.0 + 0.505 * e + 0.0845 * e * e > 0.0
  {
    var c := e + 0.505 / (2.0 * 0.0845);
    assert 1.0 + 0.505 * e + 0.0845 * e * e == 0.0845 * (c * c) + (1.0 - 0.505 * 0.505 / (4.0 * 0.0845));
    assert c * c >= 0.0;
  }

  /** The low-elevation (rational) form of the correction. */
  function LowRefraction(e: real, pTratio: real): real
  {
    LowDenominatorPositive(e);
    pTratio * (0.1594 + 0.0196 * e + 0.00002 * e * e) / (1.0 + 0.505 * e + 0.0845 * e * e)
  }

  /** The high-elevation form of the correction. */
  function HighRefraction(pTratio: real, tanElev: real): real
    requires tanElev > 0.0
  {
    0.00452 * pTratio / tanElev
  }

  /** The refraction correction of one elevation (in radians, as the source
      evaluates both forms), given the pressure/temperature ratio and
      `tan(elev)`, which is positive on the high band. */
  function Refraction(elev: real, pTratio: real, tanElev: real): real
    requires RefractionBand(RadToDeg(elev)) == HighElevation ==> tanElev > 0.0
  {
    match RefractionBand(RadToDeg(elev))
    case LowElevation => LowRefraction(elev, pTratio)
    case HighElevation => HighRefraction(pTratio, tanElev)
    case Uncorrected => 0.0
  }

  /** With a positive pressure/temperature ratio, the correction is positive
      inside the two bands (refraction lifts the apparent Sun) and zero outside
      them. */
  lemma RefractionSign(elev: real, pTratio: real, tanElev: real)
    requires RefractionBand(RadToDeg(elev)) == HighElevation ==> tanElev > 0.0
    requires pTratio > 0.0
    ensures RefractionBand(RadToDeg(elev)) != Uncorrected <==> Refraction(elev, pTratio, tanElev) > 0.0
    ensures RefractionBand(RadToDeg(elev)) == Uncorrected ==> Refraction(elev, pTratio, tanElev) == 0.0
  {
    if RefractionBand(RadToDeg(elev)) == LowElevation {
      assert elev >= -2.5 * Pi / 180.0;
      var num := 0.1594 + 0.0196 * elev + 0.00002 * elev * elev;
      assert elev * elev >= 0.0;
      assert num > 0.0;
      LowDenominatorPositive(elev);
      var den := 1.0 + 0.505 * elev + 0.0845 * elev * elev;
      assert pTratio * num > 0.0;
      assert pTratio * num / den > 0.0;
    } else if RefractionBand(RadToDeg(elev)) == HighElevation {
      assert 0.00452 * pTratio > 0.0;
    }
  }

  /** The refraction corrections of all elevations: zeros, then the `g1`
      entries, then the `g2` entries. */
  method Corrections(elev: seq<real>, pTratio: seq<real>, tanElev: seq<real>) returns (correction: seq<real>)
    requires |elev| == |pTratio| == |tanElev|
    requires forall g :: 0 <= g < |elev| ==> (RefractionBand(RadToDeg(elev[g])) == HighElevation ==> tanElev[g] > 0.0)
    ensures |correction| == |elev|
    ensures forall g :: 0 <= g < |elev| ==> correction[g] == Refraction(elev[g], pTratio[g], tanElev[g])
  {
    var c := new real[|elev|](_ => 0.0);
    for g := 0 to |elev|
      invariant forall k :: 0 <= k < g ==>
        c[k] == (if RefractionBand(RadToDeg(elev[k])) == LowElevation then Refraction(elev[k], pTratio[k], tanElev[k]) else 0.0)
      invariant forall k :: g <= k < |elev| ==> c[k] == 0.0
    {
      if RadToDeg(elev[g]) < 15.0 && RadToDeg(elev[g]) >= -2.5 {
        c[g] := LowRefraction(elev[g], pTratio[g]);
      }
    }
    for g := 0 to |elev|
      invariant forall k :: 0 <= k < g ==> c[k] == Refraction(elev[k], pTratio[k], tanElev[k])
      invariant forall k :: g <= k < |elev| ==>
        c[k] == (if RefractionBand(RadToDeg(elev[k])) == LowElevation then Refraction(elev[k], pTratio[k], tanElev[k]) else 0.0)
    {
      if RadToDeg(elev[g]) >= 15.0 && RadToDeg(elev[g]) < 90.0 {
        c[g] := HighRefraction(pTratio[g], tanElev[g]);
      }
    }
    correction := c[..];
  }

  // ---------------------------------------------------------------------------
  // Standard atmosphere

  /** What `stdatm` is given as its date: a `datetime` (by its month), a string,
      or anything else (`sunPosition` passes a list). */
  datatype DateArg = AtDateTime(month: int) | AtText(text: string) | AtOther

  /** `str.lower()` on ASCII letters. */
  function Lower(s: string): (r: string)
    ensures |r| == |s|
    ensures forall i :: 0 <= i < |s| ==> r[i] == (if 'A' <= s[i] <= 'Z' then (s[i] as int + 32) as char else s[i])
  {
    if s == [] then [] else [if 'A' <= s[0] <= 'Z' then (s[0] as int + 32) as char else s[0]] + Lower(s[1..])
  }

  predicate IsWinterName(s: string)
  {
    s == "winter" || s == "win" || s == "w"
  }

  predicate IsSummerName(s: string)
  {
    s == "summer" || s == "sum" || s == "s"
  }

  /** The season code: 0 for the northern winter, 1 for the summer, 2 when the
      date says neither. */
  function Season(d: DateArg): int
  {
    match d
    case AtDateTime(month) => if 4 <= month <= 9 then 1 else 0
    case AtText(s) =>
      if IsWinterName(Lower(s)) then 0
      else if IsSummerName(Lower(s)) then 1
      else 2
    case AtOther => 2
  }

  /** `stdatm(Date, Height)`: the season code first, then the standard pressure
      in bar, `scale * exp(rate * Height)` with the mid-latitude winter, summer
      or US standard coefficients. `exp` is the exponential the source calls. */
  function StdAtm(d: DateArg, height: real, exp: real -> real): (int, real)
  {
    var season := Season(d);
    if season == 0 then (season, 1.0180 * exp(-0.000128 * height))
    else if season == 1 then (season, 1.0133 * exp(-0.00011859 * height))
    else (season, 1.01325 * exp(-0.0001184 * height))
  }

  /** The season of a `datetime` is summer exactly for April to September. */
  lemma SeasonOfDateTime(month: int)
    ensures Season(AtDateTime(month)) == 1 <==> 4 <= month <= 9
    ensures Season(AtDateTime(month)) == 0 <==> !(4 <= month <= 9)
  {
  }

  /** A text names a season exactly when it lowercases to one of its names;
      every other text, and every other kind of date, gives 2. */
  lemma SeasonOfText(s: string)
    ensures Season(AtText(s)) == 0 <==> IsWinterName(Lower(s))
    ensures Season(AtText(s)) == 1 <==> IsSummerName(Lower(s))
    ensures Season(AtText(s)) == 2 <==> !IsWinterName(Lower(s)) && !IsSummerName(Lower(s))
  {
  }

  /** Lowercasing twice is lowercasing once. */
  lemma LowerIdempotent(s: string)
    ensures Lower(Lower(s)) == Lower(s)
  {
    var r := Lower(s);
    forall i | 0 <= i < |r|
      ensures Lower(r)[i] == r[i]
    {
      assert !('A' <= r[i] <= 'Z');
    }
  }

  /** The season of a date string ignores case: it is that of the lowercased string. */
  lemma SeasonIgnoresCase(s: string)
    ensures Season(AtText(s)) == Season(AtText(Lower(s)))
  {
    LowerIdempotent(s);
  }

  /** Upper- and mixed-case season names are recognised. */
  lemma SeasonNamesIgnoreCase()
    ensures Season(AtText("Win")) == 0
    ensures Season(AtText("S")) == 1
    ensures Season(AtText("Fall")) == 2
  {
    LowerWin();
    LowerFall();
    assert Lower("S") == "s";
  }

  lemma LowerWin()
    ensures Lower("Win") == "win"
  {
    assert Lower("n") == "n";
    assert Lower("in") == "in";
  }

  lemma LowerFall()
    ensures Lower("Fall") == "fall"
  {
    assert Lower("l") == "l";
    assert Lower("ll") == "ll";
    assert Lower("all") == "all";
  }

  /** `sunPosition` hands `stdatm` its date wrapped in a list, so the default
      pressure it uses is always the US standard atmosphere (season 2), never
      the seasonal one. */
  lemma SunPositionUsesUsStandard(height: real, tamb: real, exp: real -> real)
    ensures StdAtm(AtOther, height, exp).0 == 2
    ensures PressureTemperatureRatio(999.0, tamb, StdAtm(AtOther, height, exp).1) ==
      1.01325 * exp(-0.0001184 * height) / AirTemperature(tamb) * 1000.0
  {
  }
}
