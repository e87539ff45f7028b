# GAIA sun tracker and SKYRAD tools in Dafny

This project models the core of GAIA, a Raspberry-Pi sun tracker with a
spectroradiometer:

- **The tracker program** (`Tracker/suntracker.py`): the NMEA GGA/RMC field
  extraction, the stepper phase sequences written to the GPIO pins, the
  photodiode read and bias correction, `moveOfInterval`/`moveToPosition` with
  their backlash memory (`turnDn`, `turnRt`, `swing`), and one cycle of the
  main loop. The cycle either follows the ephemeris or fine-tracks on the
  quadrant signal.
- **The discrete rules of the ephemeris** (`SRSpci/SRStools.py`): the day
  fraction of `datenum` and the range normalisations and case splits in
  `sunPosition`. These are the mean longitude, the right-ascension quadrant,
  the hour-angle wrap, the azimuth branch, the temperature fallback and the
  refraction bands. The season rule of `stdatm` is modelled too.
- **The SKYRAD product import** (`SRSpci/skyradtools.py`): `importskyrad`
  over the lines of a file, `dateconvert`, and `formatdata`.

Files:

- `wrappers.dfy`: `Option` and `Result`, the error path for the exception
  the source would raise.
- `nmea.dfy`: `str.split(',')` and the GGA/RMC field selection.
- `stepper.dfy`: the GPIO log and the `Gpio` class with `setStep`, `forward`
  and `backward`.
- `sensor.dfy`: the ADC read loop, `biascorrection` and the quadrant signals.
- `tracking.dfy`: the control law as pure functions of the mount state, with
  its lemmas.
- `tracker.dfy`: the `Tracker` class. It holds the source's module state and
  its methods are proved against `tracking.dfy`. The file also holds the cycle
  as written, for the finding below.
- `ephemeris.dfy`: `datenum`, the `sunPosition` case splits and the
  `stdatm` season.
- `skyrad.dfy`: `str.split()`, `dateconvert`, `importskyrad` and
  `formatdata`.

Where the source updates state in place, the model does too.
`moveOfInterval` and the main loop mutate `turnDn`, `turnRt`, `altit_deg`
and `azim_deg`; here these are fields of `Tracker.Tracker`. The GPIO pins
are a log of writes in `Stepper.Gpio`. The ephemeris loops update arrays in
place and stay loops over `array<real>`; the import and format loops append
to lists and stay loops over sequences. Each such method is proved equal to
a pure function, and the properties are lemmas about that function.

Where the documented design and the code differ, the model follows the code:

- A channel whose ADC read raises `IOError` enters the bias correction as 0,
  not as its previous value: `values` is re-created as `[0]*4` every cycle.
- An unsupported gain is only noticed inside `biascorrection`, which prints
  and then fails on the undefined `coeffs`. The tracker runs at gain 2, which
  is supported.
- The hour-angle wrap leaves both -π and π alone, so the hour angle ends in
  [-π, π], not (-π, π].
- The arcsine arguments are not clamped.
- At start-up both backlash memories are 0. For DEC, 0 is the value an upward
  move records, so the first downward DEC move after start-up carries the
  swing (`Tracking.DownDownUp`).
- `suntracker.py` is Python 3 code: the fine-step law divides with true
  division before `int()`. `skyradtools.py` is Python 2 code:
  `len(Data)/len(Date)` is an integer division, since the result is used as a
  slice bound.

## Model

| member | source | states |
|---|---|---|
| Nmea.Split | Tracker/suntracker.py:48 | `str.split(',')` returns at least one field, and no field contains the separator |
| Nmea.JoinSplit | Tracker/suntracker.py:48 | joining the fields of a split with the separator gives back the sentence |
| Nmea.SplitJoin | Tracker/suntracker.py:26 | splitting separator-free fields joined by the separator gives back the fields |
| Nmea.SplitCount | Tracker/suntracker.py:26 | a split has one more field than the text has separators |
| Nmea.PositionGps | Tracker/suntracker.py:34-53 | a sentence whose field 0 is not `$GPGGA` gives None; a GGA sentence with under 10 fields raises; otherwise fields 2, 4 and 9 are returned |
| Nmea.DatetimeGps | Tracker/suntracker.py:12-32 | a sentence whose field 0 is not `$GPRMC` gives None; an RMC sentence with under 10 fields raises; otherwise the text parsed is field 9 followed by field 1 |
| Nmea.PositionGpsOfBuiltSentence | Tracker/suntracker.py:48-51 | any GGA sentence built from 10 or more comma-free fields yields exactly its fields 2, 4 and 9 |
| Nmea.DatetimeGpsOfBuiltSentence | Tracker/suntracker.py:26-30 | any RMC sentence built from 10 or more comma-free fields yields exactly field 9 followed by field 1 |
| Stepper.MotorPins | Tracker/suntracker.py:56-66 | `"RA"` selects pins 31, 33, 35, 37, `"DEC"` pins 32, 36, 38, 40; any other name writes nothing |
| Stepper.SetStepWrites | Tracker/suntracker.py:56-66 | `setStep` writes coil level `c[i]` to the i-th pin of the motor, in pin order, and nothing for an unknown motor |
| Stepper.PhaseTables | Tracker/suntracker.py:71-88 | each of the four forward and backward phases energises exactly two coils, and the backward sequence is the forward one reversed |
| Stepper.PhaseWritesPins | Tracker/suntracker.py:71-75 | one pass over the phases writes one level per motor pin per phase, and only to that motor's pins |
| Stepper.StepWritesPins | Tracker/suntracker.py:71-75 | `steps` passes write 4 × phases × steps levels, all to the moving motor's pins |
| Stepper.ReleasedAfterMove | Tracker/suntracker.py:76-92 | after `forward` or `backward`, whatever came before and even for 0 steps, all 8 RA and DEC pins were last written low |
| Stepper.ReleasedLast | Tracker/suntracker.py:76-79 | the release loops alone leave every RA and DEC pin low |
| Stepper.Gpio.Output | Tracker/suntracker.py:58 | one `GPIO.output` appends one write to the log and changes nothing else |
| Stepper.Gpio.SetStep | Tracker/suntracker.py:56-66 | `setStep` appends exactly the writes `SetStepWrites` lists |
| Stepper.Gpio.RunPhaseTable | Tracker/suntracker.py:72-75 | one pass of the step loop's body appends one `setStep` write group per phase, in table order |
| Stepper.Gpio.RunPhases | Tracker/suntracker.py:71-75 | the step loop appends `steps` passes over the phase sequence |
| Stepper.Gpio.ReleaseAll | Tracker/suntracker.py:76-79 | the release loops append a low write to the 4 RA pins, then to the 4 DEC pins |
| Stepper.Gpio.Forward | Tracker/suntracker.py:68-79 | `forward` appends the forward phases `steps` times, then the release writes |
| Stepper.Gpio.Backward | Tracker/suntracker.py:81-92 | `backward` appends the backward phases `steps` times, then the release writes |
| Sensor.BiasCoefficients | Tracker/suntracker.py:95-110 | a coefficient row exists exactly for the gains 2/3, 1, 2, 4, 8 and 16, and has 4 entries |
| Sensor.BiasCorrection | Tracker/suntracker.py:95-111 | for a supported gain, channel c becomes `value[c] + coeffs[c]` for the 4 channels; any other gain fails |
| Sensor.ReadChannels | Tracker/suntracker.py:256-262 | channel i holds its reading, or 0 when the read raised |
| Sensor.CorrectionShiftsFrame | Tracker/suntracker.py:264-267 | the bias shifts the vertical, horizontal and total signals by fixed offsets of the coefficient row |
| Sensor.EvenLightLeavesBias | Tracker/suntracker.py:264-267 | under even light on the 4 diodes, the vertical and horizontal signals are the bias offsets alone and the total is 4x plus the coefficient sum |
| Sensor.EvenLightAtGainOne | Tracker/suntracker.py:264-267 | four readings of 4000 at gain 1 give the frame (-78, -22, 16076) |
| Sensor.EvenLightAtGainTwo | Tracker/suntracker.py:264-267 | four equal readings x at gain 2 give the frame (-156, -44, 4x + 150) |
| Sensor.AllReadsFailed | Tracker/suntracker.py:256-267 | when all four reads raise, the frame is made of the bias coefficients alone |
| Tracking.MoveToPosition | Tracker/suntracker.py:176-179 | `moveToPosition` ends exactly at the target pointing |
| Tracking.FineSteps | Tracker/suntracker.py:285-287 | a fine step count never exceeds 50, swing included |
| Tracking.FineStepsDec | Tracker/suntracker.py:283-298 | the DEC fine count is `min(50, abs(err) div 40)`, plus 19 inside the cap when reversing |
| Tracking.FineStepsRa | Tracker/suntracker.py:306-321 | the RA fine count is `min(50, abs(err) div 20)`, plus 19 inside the cap when reversing |
| Tracking.CoarseStepsSwing | Tracker/suntracker.py:127-131 | adding the swing inside `int()` adds exactly 19 steps |
| Tracking.CoarseAxisBacklash | Tracker/suntracker.py:127-168 | a zero delta issues nothing and keeps the memory; a non-zero delta issues one command in its direction, with the swing exactly when the memory is reversed, and records the direction |
| Tracking.AxisRunSwing | Tracker/suntracker.py:127-168 | in any run of non-zero moves on one axis, a move carries the swing exactly when its sign differs from the previous move's (or the initial memory's); repeated directions never carry it |
| Tracking.DownDownUp | Tracker/suntracker.py:137-146 | DEC down, down, up: from a "down" memory only the third move carries the swing; from the start-up memory the first does too |
| Tracking.MoveOfIntervalEffect | Tracker/suntracker.py:116-173 | `moveOfInterval` returns the old pointing plus the nominal deltas, issues one command per non-zero axis (DEC first), and updates only the memories of the axes that moved |
| Tracking.EphemerisMode | Tracker/suntracker.py:273-280 | with a total below 3000 the cycle ends at (90 − SZA, Azim) with the memories `moveOfInterval` leaves |
| Tracking.FineModeStepBound | Tracker/suntracker.py:282-326 | with a total of at least 3000 the cycle issues one command per axis outside the tolerance, DEC first, each of at most 50 steps |
| Tracking.FineDecLaw | Tracker/suntracker.py:283-303 | a vertical error beyond 100 issues one DEC command (forward when positive, backward when negative) of 2 to 50 steps, records its direction, and lowers the altitude by steps / 173.6 in both cases |
| Tracking.FineRaLaw | Tracker/suntracker.py:306-326 | a horizontal error beyond 100 issues one RA command of 5 to 50 steps; positive: forward, `turnRt = 0`, azimuth lowered; negative: backward, `turnRt = 1`, azimuth raised |
| Tracking.ResyncWhenCentred | Tracker/suntracker.py:306-333 | with the Sun seen and the horizontal error within 100, the cycle ends at (90 − SZA, Azim) whatever the vertical error, issues only the DEC command and keeps `turnRt` |
| Tracking.ThresholdIsExclusive | Tracker/suntracker.py:273-282 | a total of 2999 follows the ephemeris (15624 DEC and 48933 RA steps from (0, 0) to (90, 90)); a total of 3000 fine-tracks |
| Tracking.RaConventionsDisagree | Tracker/suntracker.py:306-315 | a fine forward RA step records `turnRt = 0`, so a following forward `moveOfInterval` RA move is charged the swing although the axis keeps its direction |
| Tracker.WritesAppend | Tracker/suntracker.py:68-92 | the GPIO writes of two command sequences are those of the first followed by those of the second |
| Tracker.MotorsReleasedAfter | Tracker/suntracker.py:76-92 | after any non-empty sequence of motor commands, all 8 RA and DEC pins were last written low |
| Tracker.Tracker.constructor | Tracker/suntracker.py:206-207 | the tracker starts at the operator's pointing with both backlash memories 0 and nothing issued |
| Tracker.Tracker.Drive | Tracker/suntracker.py:68-92 | one motor command appends its GPIO writes and is recorded |
| Tracker.Tracker.MoveDec | Tracker/suntracker.py:127-147 | the DEC half of `moveOfInterval` issues the command and sets `turnDn` as `CoarseAxis` says, and writes those pins |
| Tracker.Tracker.MoveRa | Tracker/suntracker.py:149-169 | the RA half of `moveOfInterval` issues the command and sets `turnRt` as `CoarseAxis` says |
| Tracker.Tracker.MoveOfInterval | Tracker/suntracker.py:116-173 | returns `(initDEC + moveDEC, initRA + moveRA)` and leaves the memories, commands and GPIO writes of `Tracking.MoveOfInterval` |
| Tracker.Tracker.MoveToPosition | Tracker/suntracker.py:176-179 | returns exactly `(finalDEC, finalRA)`, by way of `moveOfInterval` on the differences |
| Tracker.Tracker.Acquire | Tracker/suntracker.py:246-248 | the start-up move points the mount at (90 − SZA, Azim) |
| Tracker.Tracker.FineTrackDec | Tracker/suntracker.py:283-303 | the DEC branch of the cycle updates the altitude and `turnDn`, issues and writes the command of `FineDec` |
| Tracker.Tracker.FineStepDec | Tracker/suntracker.py:283-302 | an out-of-tolerance DEC error sets the count `min(50, int(law))` (plus the swing inside `int` on a reversal), the memory and the lowered altitude of `FineDec`, and yields its one command |
| Tracker.Tracker.FineTrackRa | Tracker/suntracker.py:306-335 | the RA branch updates the azimuth and `turnRt`, or resynchronises to the ephemeris, as `FineRa` says |
| Tracker.Tracker.FineStepRa | Tracker/suntracker.py:306-325 | an out-of-tolerance RA error sets the count, the memory and the azimuth (lowered by `forward`, raised by `backward`) of `FineRa`, and yields its one command |
| Tracker.Tracker.Cycle | Tracker/suntracker.py:256-335 | one main-loop iteration: read the channels, correct them at gain 2, and move as `CycleSpec` says for the resulting frame |
| Tracker.Tracker.Follow | Tracker/suntracker.py:271-335 | the branch on the frame: ephemeris below 3000, fine tracking otherwise, as `CycleSpec` says |
| Tracker.Tracker.FineTrack | Tracker/suntracker.py:282-335 | at or above the threshold the DEC half then the RA half run, and the commands and writes are those of both in order |
| Tracker.AsWrittenNeverReachesEphemeris | Tracker/suntracker.py:273-333 | as written, a cycle survives exactly when the Sun is seen and off centre horizontally, and then agrees with the corrected cycle |
| Tracker.AsWrittenStopsWhenReadsFail | Tracker/suntracker.py:273-275 | when every read fails the frame total is 150: as written the cycle raises without moving, corrected it moves to the ephemeris position |
| Tracker.CentredFrame | Tracker/suntracker.py:327-333 | readings (4078, 4000, 4000, 3922) at gain 2 give the centred frame (0, −44, 16150): the corrected cycle only resynchronises, the cycle as written raises |
| Ephemeris.PyMod | SRSpci/SRStools.py:89 | the float `%` by a positive modulus lies in [0, m), and `x` minus it is `x // m` whole moduli |
| Ephemeris.DayFractionRange | SRSpci/SRStools.py:22-24 | the day fraction `seconds/86400 + µs/86400e6` of a valid `datetime` lies in [0, 1) |
| Ephemeris.DatenumSplits | SRSpci/SRStools.py:83-84 | a `datenum` value has whole part ordinal + 366, and `% 1 * 24` gives the time of day in hours |
| Ephemeris.Datenum | SRSpci/SRStools.py:12-30 | one value `ordinal + 366 + day fraction` per date, a scalar for one date; it overflows exactly when a date is within 366 days of the end of year 9999 |
| Ephemeris.MeanLongitudeRange | SRSpci/SRStools.py:89-92 | the mean longitude lies in [0, 360), and the fix for negative values never applies |
| Ephemeris.RightAscensionQuadrant | SRSpci/SRStools.py:107-113 | the right ascension lies in [0, 2π), in the quadrant of (den, num) |
| Ephemeris.RightAscensions | SRSpci/SRStools.py:107-113 | the loop sets `ra[l]` by the quadrant rule for every date, each in [0, 2π) |
| Ephemeris.WrapHourAngleRange | SRSpci/SRStools.py:122-125 | one shift by at most 2π brings a raw hour angle in (−3π, 3π) into [−π, π], leaving values already there unchanged |
| Ephemeris.HourAngleInRange | SRSpci/SRStools.py:118-125 | the local sidereal time lies in [0, 2π), so `lmst - ra` always needs at most one shift |
| Ephemeris.WrapHourAngles | SRSpci/SRStools.py:122-125 | the loop wraps every `ha[l]` in place |
| Ephemeris.AzimuthRange | SRSpci/SRStools.py:132-137 | from an arcsine value, the corrected azimuth lies in [0, 2π): in the northern half when PosCond holds, the southern half when it fails |
| Ephemeris.CorrectAzimuths | SRSpci/SRStools.py:134-137 | the loop applies the azimuth branch to every `azim[l]` in place |
| Ephemeris.AirTemperature | SRSpci/SRStools.py:142-143 | the temperature used is positive |
| Ephemeris.AirTemperatureRange | SRSpci/SRStools.py:142-143 | 298.15 K when `Tamb < -99` or `Tamb > 90`, `Tamb + 273.15` otherwise, always within [174.15, 363.15] |
| Ephemeris.LowDenominatorPositive | SRSpci/SRStools.py:155-156 | the denominator of the low-elevation refraction formula is positive for every elevation |
| Ephemeris.RefractionSign | SRSpci/SRStools.py:152-159 | with a positive pressure/temperature ratio the correction is positive exactly inside the two bands and 0 outside them |
| Ephemeris.Corrections | SRSpci/SRStools.py:152-159 | the correction of each elevation is the rational form on [−2.5°, 15°), the cotangent form on [15°, 90°), 0 elsewhere |
| Ephemeris.Lower | SRSpci/SRStools.py:310-311 | ASCII-only lowercasing: each ASCII capital becomes its small letter, every other character is kept; it decides the same season as Python's `str.lower` |
| Ephemeris.SeasonOfDateTime | SRSpci/SRStools.py:307-308 | a `datetime` gives season 1 exactly for April to September, 0 otherwise |
| Ephemeris.SeasonOfText | SRSpci/SRStools.py:309-312 | a string gives 0 exactly when it lowercases to winter/win/w, 1 for summer/sum/s, 2 otherwise |
| Ephemeris.LowerIdempotent | SRSpci/SRStools.py:310-311 | lowercasing an already lowercased string changes nothing |
| Ephemeris.SeasonIgnoresCase | SRSpci/SRStools.py:309-312 | the season of any date string is that of its lowercased form, so case never changes the season |
| Ephemeris.SeasonNamesIgnoreCase | SRSpci/SRStools.py:309-312 | "Win" gives 0, "S" gives 1, "Fall" gives 2 |
| Ephemeris.SunPositionUsesUsStandard | SRSpci/SRStools.py:147 | `sunPosition` passes its date as a list, so the default pressure is always the US standard atmosphere (season 2), returned second after the season |
| Skyrad.Words | SRSpci/skyradtools.py:51 | `str.split()` yields non-empty words without whitespace |
| Skyrad.WordsUnwords | SRSpci/skyradtools.py:51 | splitting words written out with single spaces gives them back |
| Skyrad.NextHour | SRSpci/skyradtools.py:20 | adding 60 minutes carries into the day, month and year, gives a valid later stamp, and overflows only after 9999-12-31 23:00 |
| Skyrad.RoundHalfEven | SRSpci/skyradtools.py:19 | `np.round` is within one half of its argument, and an exact half goes to the even integer |
| Skyrad.MinutesRange | SRSpci/skyradtools.py:19 | the rounded minutes of the hour's fraction lie in 0..60 |
| Skyrad.DateConvertMeaning | SRSpci/skyradtools.py:12-20 | `dateconvert` gives the stated day and whole hour with the rounded minutes, or the next hour when they round to 60; it fails exactly for an invalid date or a rollover past year 9999 |
| Skyrad.DateConvertExamples | SRSpci/skyradtools.py:12-20 | 2018-12-31 at 23.9999 h becomes 2019-01-01 00:00; 10.5 h becomes 10:30; 29 February 2018 is refused |
| Skyrad.TagFields | SRSpci/skyradtools.py:53-56 | a tag line with under 13 words raises; otherwise its year, month and day are `int()` of fields 1–3, its hour is field 4 and its error is field 12 |
| Skyrad.ParseRow | SRSpci/skyradtools.py:62 | a data row parses when all its words do, to one number per word |
| Skyrad.ConvertAll | SRSpci/skyradtools.py:67 | the dates convert one by one, in order |
| Skyrad.GatherErrorPersists | SRSpci/skyradtools.py:49-62 | an exception on one line is the exception of the whole line loop |
| Skyrad.ConvertErrorPersists | SRSpci/skyradtools.py:67 | a date that fails to convert fails the whole conversion the same way |
| Skyrad.ChunkRows | SRSpci/skyradtools.py:66 | the slicing loop produces `Chunk(rows, L)` |
| Skyrad.GatherLines | SRSpci/skyradtools.py:49-62 | the line loop produces what `Gather` describes, exception included |
| Skyrad.ConvertDates | SRSpci/skyradtools.py:67 | the conversion loop produces what `ConvertAll` describes |
| Skyrad.ImportSkyrad | SRSpci/skyradtools.py:22-70 | `importskyrad` on a file's lines: empty file, line loop, slicing and date conversion as `ImportSpec` describes |
| Skyrad.EmptyFile | SRSpci/skyradtools.py:43-46 | an empty file gives three empty lists |
| Skyrad.AddLineEffect | SRSpci/skyradtools.py:50-62 | a tag line adds one date (fields 1–4) and one error (field 12) and no row; another line adds its parsed row in a `par`/`vol` file and nothing otherwise |
| Skyrad.GatherCounts | SRSpci/skyradtools.py:49-62 | the loop gathers one date and one error per tag line, and one row per other line of a `par`/`vol` file |
| Skyrad.FlattenChunk | SRSpci/skyradtools.py:65-66 | concatenating the slices gives back the rows in order |
| Skyrad.ChunkSizes | SRSpci/skyradtools.py:66 | every slice but the last holds L rows and the last 1 to L |
| Skyrad.ChunkExact | SRSpci/skyradtools.py:65-66 | k·L rows make exactly k slices |
| Skyrad.AssembleShape | SRSpci/skyradtools.py:64-67 | slicing keeps the errors and every row, with one slice per retrieval when the rows divide evenly |
| Skyrad.ImportShape | SRSpci/skyradtools.py:43-70 | a successful import has one date and one error per tag line, loses no row, and one slice per retrieval when the rows divide evenly |
| Skyrad.OtherProductsFail | SRSpci/skyradtools.py:61-66 | a non-empty file that is neither `par` nor `vol` always fails to import |
| Skyrad.UnevenChunks | SRSpci/skyradtools.py:65-66 | 7 rows and 3 retrievals make 4 slices, the last holding one row |
| Skyrad.FormatData | SRSpci/skyradtools.py:72-126 | `par` and `vol` select their columns, any other product returns None, and a missing index raises exactly when the data is not well shaped |
| Skyrad.FormatPar | SRSpci/skyradtools.py:93-112 | `AOD[j][k]`, `SSA[j][k]` and `RefIdx[j][k]` are columns 1, 3 and (4, 5) of row k of retrieval j, over `len(Data[0])` rows; the wavelengths are column 0 of the first retrieval in nm, truncated |
| Skyrad.FormatVol | SRSpci/skyradtools.py:114-126 | `VolDist[j][k]` is column 0 of row k of retrieval j and `Sizes[l]` column 0 of row l of the first retrieval |

## Left out

- GPS serial reading and its retry loops (suntracker.py:210-236) are I/O. Line 232 passes a list to `datetime_gps`, which then raises inside the retry loop and retries forever.
- GPIO setup, `GPIO.cleanup`, the ADC driver, `time.sleep`, `print` and `input()` are I/O. The operator's initial pointing is a constructor argument.
- `sunPosition`'s trigonometric and exponential values, and the Sun position itself, are inputs. The tracker takes SZA and azimuth as method arguments; the ephemeris rules take the arctan, sine-sign and tangent values the numeric library returned.
- Floating point: angles, signals and spectra are reals, so IEEE rounding, infinities and NaN are not modelled. A zero-over-zero arctan is excluded by `Ephemeris.IsArctanOfRatio`.
- `airmass`, `Guyairmass`, `rayleigh_OD`, `ozone_OD`, `no2_OD`, `wv_MTau` and `sunrad_spa` are floating-point numerics with data-file I/O. `importsunrad` is `np.loadtxt`/`strptime` I/O.
- `avaspecSRS.py`, `operateSRS.py`, `cfg.py`, `test_SRS_solar.py` and `check_alignment_SRS.py` are device bindings, device control and measurement scripts. They are not part of this model.
- Nmea.PositionGps: returns the texts of fields 2, 4 and 9 rather than their `float()` values. A malformed number (`ValueError`) is not modelled.
- Nmea.DatetimeGps: returns the text handed to `strptime` rather than the parsed `datetime`. A malformed date is not modelled.
- Skyrad.ImportSkyrad: the file is given as its lines. Number parsing is a pair of parameter functions whose `None` is the `ValueError`. `open`, `read` and `close` are I/O.
- In `dateconvert`, year, month and day come in as integers, since they are `int()`-parsed before being stored in the float array.
- `datenum` of a single `datetime` is modelled as `datenum` of a one-element sequence, which is what the source turns it into. Day ordinals stand for calendar dates.
- The `np.exp` of `stdatm` is a parameter function.
- The refraction loop takes the pressure/temperature ratio per elevation, which is what `np.repeat` makes of a scalar.
- Stepper.Gpio.Forward: the `delay` argument and the sleeps between phases are left out; only the order of pin writes is modelled.
- Stepper.Gpio.Backward: the `delay` argument and the sleeps between phases are left out, as for `forward`.
- Ephemeris.Lower: lowercases ASCII capitals only, where Python 3's `str.lower` also lowercases non-ASCII capitals (É to é). No non-ASCII capital lowercases to a season name, so the season `stdatm` picks is the same.
- `formatdata`'s default argument `product='par'` is not modelled: `Skyrad.FormatData` always takes the product explicitly.
- In fine tracking the model updates the pointing estimate before it runs the motor command, where the source runs the command first. Nothing reads the estimate in between, so the final state and the writes are the same.

## Findings

| source | as written | input that shows it | evidently intended | confidence | as-written member | corrected member |
|---|---|---|---|---|---|---|
| Tracker/suntracker.py:275 | `datetime.datetime.now()` is looked up on the class imported by `from datetime import datetime`. It has no attribute `datetime`, so the call raises `AttributeError`, as does the same call at line 329. The main loop ends and the `finally` clause releases the GPIO. | All four ADC reads fail at gain 2. The corrected frame is (−156, −44, 150), the total is below 3000, and the ephemeris branch raises before moving. A centred Sun, for example readings (4078, 4000, 4000, 3922) at gain 2, which correct to the frame (0, −44, 16150), raises at the resynchronisation. | `datetime.now()`, and the ephemeris calls at lines 276 and 330 should then use its value `d` (`sunPosition(d, …)`) instead of the start-up GPS `Date` of line 232, so that the target follows the clock. The loop should go on following the ephemeris, or resynchronise, and continue. The model is unaffected either way, because SZA and azimuth are its inputs. | high, not executed | Tracker.AsWrittenStopsWhenReadsFail | Tracking.EphemerisMode |
