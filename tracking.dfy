/**
  The tracker's control law as functions of its state: the per-axis backlash
  memory, the degrees-to-steps conversion, the interval move of
  `moveOfInterval`, the fine-tracking step law, and one cycle of the main loop.
  The `Tracker` class in module `Tracker` runs these on real state.

  Angles are reals, so the floating-point rounding of the source is not part of
  the model; `int()` of a non-negative value is `Floor`.
*/
module Tracking {
  import opened Sensor

  /** The two axes of the mount. */
  datatype Axis = RA | DEC

  /** Which phase table drives the motor: `forward` or `backward`. */
  datatype Dir = Forward | Backward

  /** One call of `forward(motor, delay, steps)` or `backward(motor, delay, steps)`. */
  datatype Command = Command(axis: Axis, dir: Dir, steps: nat)

  /** The values the direction flags `turnDn` and `turnRt` take. */
  type Bit = b: int | 0 <= b <= 1

  /** The controller's state: estimated pointing (`altit_deg`, `azim_deg`) and
      the backlash memory of each axis (`turnDn` for DEC, `turnRt` for RA). */
  datatype Mount = Mount(altDeg: real, azDeg: real, turnDn: Bit, turnRt: Bit)

  /** The state after an operation, and the motor commands it issued in order. */
  datatype Step = Step(mount: Mount, cmds: seq<Command>)

  /** Extra steps that take up drivetrain slack when an axis reverses. */
  const Swing: nat := 19
  /** Motor steps per degree of the DEC axis. */
  const StepsPerDegDec: real := 173.6
  /** Motor steps per degree of the RA axis. */
  const StepsPerDegRa: real := 543.7
  /** Dead band of the vertical and horizontal errors. */
  const Tolerance: int := 100
  /** Total signal below which the Sun is taken as not seen. */
  const RadThreshold: int := 3000
  /** Gain of the proportional fine-step law (`qcdstep`). */
  const QcdStep: int := 20
  /** Cap on the fine steps issued per axis and cycle. */
  const MaxFineSteps: nat := 50
  /** Divisor of the DEC fine-step law. */
  const DecDivisor: real := 8.0
  /** Divisor of the RA fine-step law. */
  const RaDivisor: real := 4.0

  function Abs(x: real): (r: real)
    ensures r >= 0.0 && (r == x || r == -x)
  {
    if x < 0.0 then -x else x
  }

  function Min(a: int, b: int): int
  {
    if a < b then a else b
  }

  /** Python's `int()` of a non-negative value. */
  function Trunc(x: real): nat
    requires x >= 0.0
  {
    x.Floor
  }

  function SwingIf(reversing: bool): real
  {
    if reversing then Swing as real else 0.0
  }

  /** The direction memory `moveOfInterval` records: 1 after a `forward` move
      (DEC down, `moveDEC < 0`; RA with `moveRA < 0`), 0 after a `backward` one. */
  function CoarseMark(d: Dir): Bit
  {
    if d == Forward then 1 else 0
  }

  /** The direction memory the fine-tracking branches record: for DEC the same as
      `moveOfInterval`, for RA the opposite (`forward` RA sets `turnRt = 0`). */
  function FineMark(axis: Axis, d: Dir): Bit
  {
    if axis == DEC then CoarseMark(d) else 1 - CoarseMark(d)
  }

  /** `int(abs(ratio * delta))`, or `int(abs(ratio * delta) + swing)` on a reversal. */
  function CoarseSteps(ratio: real, delta: real, reversing: bool): nat
  {
    Trunc(Abs(ratio * delta) + SwingIf(reversing))
  }

  /** One axis of `moveOfInterval`: a positive delta drives `backward` and records
      0, a negative one drives `forward` and records 1, each adding the swing
      when the memory held the other value; a zero delta does nothing. Returns
      the new memory and the commands issued. */
  function CoarseAxis(axis: Axis, ratio: real, mem: Bit, delta: real): (Bit, seq<Command>)
  {
    if delta > 0.0 then
      (CoarseMark(Backward), [Command(axis, Backward, CoarseSteps(ratio, delta, mem != CoarseMark(Backward)))])
    else if delta < 0.0 then
      (CoarseMark(Forward), [Command(axis, Forward, CoarseSteps(ratio, -delta, mem != CoarseMark(Forward)))])
    else
      (mem, [])
  }

  /** `moveOfInterval(altDeg, azDeg, moveDec, moveRa)`: DEC first, then RA; the
      new pointing is the old one plus the nominal deltas (swing steps are slack
      take-up, not motion). */
  function MoveOfInterval(m: Mount, moveDec: real, moveRa: real): Step
  {
    var dec := CoarseAxis(DEC, StepsPerDegDec, m.turnDn, moveDec);
    var ra := CoarseAxis(RA, StepsPerDegRa, m.turnRt, moveRa);
    Step(Mount(m.altDeg + moveDec, m.azDeg + moveRa, dec.0, ra.0), dec.1 + ra.1)
  }

  /** `moveToPosition(altDeg, azDeg, finalDec, finalRa)`: it ends exactly at the
      requested pointing. */
  function MoveToPosition(m: Mount, finalDec: real, finalRa: real): (r: Step)
    ensures r.mount.altDeg == finalDec && r.mount.azDeg == finalRa
  {
    MoveOfInterval(m, finalDec - m.altDeg, finalRa - m.azDeg)
  }

  /** The angle in degrees turned by `n` motor steps. */
  function Degrees(n: nat, stepsPerDeg: real): real
    requires stepsPerDeg > 0.0
  {
    n as real / stepsPerDeg
  }

  /** The uncapped proportional law `abs(qcdstep * err / tolerance) / divisor`. */
  function FineLaw(err: int, divisor: real): real
    requires divisor > 0.0
  {
    Abs(QcdStep as real * err as real / Tolerance as real) / divisor
  }

  /** The proportional fine-step law `min(50, int(abs(qcdstep * err / tolerance) / divisor))`,
      with the swing added inside the `int(...)`, and so inside the cap, on a reversal. */
  function FineSteps(err: int, divisor: real, reversing: bool): (n: nat)
    requires divisor > 0.0
    ensures n <= MaxFineSteps
  {
    Min(MaxFineSteps, Trunc(FineLaw(err, divisor) + SwingIf(reversing)))
  }

  /** The DEC branch of fine tracking. Both out-of-tolerance cases lower the
      altitude estimate by the steps issued, swing included. */
  function FineDec(m: Mount, vertical: int): Step
  {
    if vertical > Tolerance then
      var n := FineSteps(vertical, DecDivisor, m.turnDn != FineMark(DEC, Forward));
      Step(m.(altDeg := m.altDeg - Degrees(n, StepsPerDegDec), turnDn := FineMark(DEC, Forward)),
           [Command(DEC, Forward, n)])
    else if vertical < -Tolerance then
      var n := FineSteps(vertical, DecDivisor, m.turnDn != FineMark(DEC, Backward));
      Step(m.(altDeg := m.altDeg - Degrees(n, StepsPerDegDec), turnDn := FineMark(DEC, Backward)),
           [Command(DEC, Backward, n)])
    else
      Step(m, [])
  }

  /** The RA branch of fine tracking, whose `else` is also the resynchronisation:
      when the horizontal error is within tolerance, the pointing estimate is
      reset to the ephemeris position `(90 - sza, azim)`. */
  function FineRa(m: Mount, horizontal: int, sza: real, azim: real): Step
  {
    if horizontal > Tolerance then
      var n := FineSteps(horizontal, RaDivisor, m.turnRt != FineMark(RA, Forward));
      Step(m.(azDeg := m.azDeg - Degrees(n, StepsPerDegRa), turnRt := FineMark(RA, Forward)),
           [Command(RA, Forward, n)])
    else if horizontal < -Tolerance then
      var n := FineSteps(horizontal, RaDivisor, m.turnRt != FineMark(RA, Backward));
      Step(m.(azDeg := m.azDeg + Degrees(n, StepsPerDegRa), turnRt := FineMark(RA, Backward)),
           [Command(RA, Backward, n)])
    else
      Step(m.(altDeg := 90.0 - sza, azDeg := azim), [])
  }

  /** One cycle of the main loop after the frame has been read: below the
      radiation threshold follow the ephemeris `(sza, azim)`, otherwise fine-track
      DEC and then RA. */
  function CycleSpec(m: Mount, f: Frame, sza: real, azim: real): Step
  {
    if f.total < RadThreshold then
      MoveToPosition(m, 90.0 - sza, azim)
    else
      var d := FineDec(m, f.vertical);
      var r := FineRa(d.mount, f.horizontal, sza, azim);
      Step(r.mount, d.cmds + r.cmds)
  }

  // ---------------------------------------------------------------------------
  // Step counts

  /** Flooring a quotient of naturals plus a natural is integer division plus it. */
  lemma FloorOfQuotient(a: nat, b: nat, k: nat)
    requires b > 0
    ensures (a as real / b as real + k as real).Floor == a / b + k
  {
    var q, r := a / b, a % b;
    assert a == q * b + r;
    assert a as real == q as real * b as real + r as real;
    assert a as real / b as real == q as real + r as real / b as real;
    assert 0.0 <= r as real / b as real < 1.0;
  }

  /** The DEC fine-step law in integers: `min(50, |err| div 40)`, plus 19 inside
      the cap on a reversal. */
  lemma FineStepsDec(err: int, reversing: bool)
    ensures FineSteps(err, DecDivisor, reversing) ==
      Min(MaxFineSteps, (if err < 0 then -err else err) / 40 + (if reversing then Swing else 0))
  {
    var a: nat := if err < 0 then -err else err;
    assert FineLaw(err, DecDivisor) == a as real / 40.0;
    FloorOfQuotient(a, 40, if reversing then Swing else 0);
  }

  /** The RA fine-step law in integers: `min(50, |err| div 20)`, plus 19 inside
      the cap on a reversal. */
  lemma FineStepsRa(err: int, reversing: bool)
    ensures FineSteps(err, RaDivisor, reversing) ==
      Min(MaxFineSteps, (if err < 0 then -err else err) / 20 + (if reversing then Swing else 0))
  {
    var a: nat := if err < 0 then -err else err;
    assert FineLaw(err, RaDivisor) == a as real / 20.0;
    FloorOfQuotient(a, 20, if reversing then Swing else 0);
  }

  /** Adding the swing inside `int()` adds exactly 19 steps. */
  lemma CoarseStepsSwing(ratio: real, delta: real)
    ensures CoarseSteps(ratio, delta, true) == CoarseSteps(ratio, delta, false) + Swing
  {
  }

  // ---------------------------------------------------------------------------
  // moveOfInterval and the backlash memory

  /** One axis of `moveOfInterval`: a zero delta issues nothing and keeps the
      memory; otherwise exactly one command in the direction of the sign, whose
      step count includes the swing exactly when the memory is reversed, and the
      memory then records that direction. */
  lemma CoarseAxisBacklash(axis: Axis, ratio: real, mem: Bit, delta: real)
    ensures delta == 0.0 ==> CoarseAxis(axis, ratio, mem, delta) == (mem, [])
    ensures delta != 0.0 ==>
      var dir := if delta > 0.0 then Backward else Forward;
      var r := CoarseAxis(axis, ratio, mem, delta);
      && r.0 == CoarseMark(dir)
      && r.1 == [Command(axis, dir, MoveSteps(ratio, delta, mem != CoarseMark(dir)))]
  {
    if delta > 0.0 {
      CoarseStepsSwing(ratio, delta);
    } else if delta < 0.0 {
      assert Abs(ratio * -delta) == Abs(ratio * delta);
      CoarseStepsSwing(ratio, -delta);
    }
  }

  /** The memory a non-zero delta leaves behind. */
  function MarkOf(delta: real): Bit
  {
    if delta > 0.0 then CoarseMark(Backward) else CoarseMark(Forward)
  }

  /** A run of `moveOfInterval` moves on one axis: the commands issued, threading
      the memory from one move to the next. */
  function AxisRun(axis: Axis, ratio: real, mem: Bit, deltas: seq<real>): seq<Command>
    decreases |deltas|
  {
    if deltas == [] then []
    else
      var r := CoarseAxis(axis, ratio, mem, deltas[0]);
      r.1 + AxisRun(axis, ratio, r.0, deltas[1..])
  }

  /** Whether move `i` of a run reverses the axis: the first against the initial
      memory, every later one against the move before it. */
  function Reverses(mem: Bit, deltas: seq<real>, i: nat): bool
    requires i < |deltas|
  {
    if i == 0 then mem != MarkOf(deltas[0]) else MarkOf(deltas[i]) != MarkOf(deltas[i - 1])
  }

  /** The steps a non-zero move of `delta` degrees takes: the nominal count, plus
      the swing on a reversal. */
  function MoveSteps(ratio: real, delta: real, reversing: bool): nat
  {
    Trunc(Abs(ratio * delta)) + (if reversing then Swing else 0)
  }

  /** Backlash invariant: in a run of non-zero moves, move `i` carries the swing
      exactly when its sign differs from the previous move's (or, for the first,
      from the initial memory); moves repeating a direction never carry it. */
  lemma {:induction false} AxisRunSwing(axis: Axis, ratio: real, mem: Bit, deltas: seq<real>)
    requires forall i :: 0 <= i < |deltas| ==> deltas[i] != 0.0
    ensures |AxisRun(axis, ratio, mem, deltas)| == |deltas|
    ensures forall i :: 0 <= i < |deltas| ==>
      AxisRun(axis, ratio, mem, deltas)[i].steps == MoveSteps(ratio, deltas[i], Reverses(mem, deltas, i))
    decreases |deltas|
  {
    if deltas != [] {
      var r := CoarseAxis(axis, ratio, mem, deltas[0]);
      CoarseAxisBacklash(axis, ratio, mem, deltas[0]);
      assert r.0 == MarkOf(deltas[0]);
      assert r.1[0].steps == MoveSteps(ratio, deltas[0], Reverses(mem, deltas, 0));
      var tail := deltas[1..];
      AxisRunSwing(axis, ratio, r.0, tail);
      var rest := AxisRun(axis, ratio, r.0, tail);
      var run := AxisRun(axis, ratio, mem, deltas);
      assert run == r.1 + rest;
      forall i | 1 <= i < |deltas|
        ensures run[i].steps == MoveSteps(ratio, deltas[i], Reverses(mem, deltas, i))
      {
        assert run[i] == rest[i - 1];
        assert tail[i - 1] == deltas[i];
        assert Reverses(r.0, tail, i - 1) == Reverses(mem, deltas, i);
      }
    }
  }

  /** DEC moves down, down, up from an axis whose last move was down: only the
      third move carries the swing. From the start-up memory (`turnDn = 0`, the
      value "up" records), the first move down carries it too. */
  lemma DownDownUp(d1: real, d2: real, d3: real)
    requires d1 < 0.0 && d2 < 0.0 && d3 > 0.0
    ensures var run := AxisRun(DEC, StepsPerDegDec, 1, [d1, d2, d3]);
      && |run| == 3
      && run[0].steps == MoveSteps(StepsPerDegDec, d1, false)
      && run[1].steps == MoveSteps(StepsPerDegDec, d2, false)
      && run[2].steps == MoveSteps(StepsPerDegDec, d3, true)
    ensures var run := AxisRun(DEC, StepsPerDegDec, 0, [d1, d2, d3]);
      && |run| == 3
      && run[0].steps == MoveSteps(StepsPerDegDec, d1, true)
      && run[1].steps == MoveSteps(StepsPerDegDec, d2, false)
      && run[2].steps == MoveSteps(StepsPerDegDec, d3, true)
  {
    AxisRunSwing(DEC, StepsPerDegDec, 1, [d1, d2, d3]);
    AxisRunSwing(DEC, StepsPerDegDec, 0, [d1, d2, d3]);
    assert Reverses(1, [d1, d2, d3], 2);
  }

  /** `moveOfInterval` ends at the old pointing plus the nominal deltas, issues
      one command per axis with a non-zero delta (DEC first), and leaves each
      memory as `CoarseAxis` says. */
  lemma MoveOfIntervalEffect(m: Mount, moveDec: real, moveRa: real)
    ensures var r := MoveOfInterval(m, moveDec, moveRa);
      && r.mount.altDeg == m.altDeg + moveDec && r.mount.azDeg == m.azDeg + moveRa
      && |r.cmds| == (if moveDec != 0.0 then 1 else 0) + (if moveRa != 0.0 then 1 else 0)
      && (forall i :: 0 <= i < |r.cmds| ==> (r.cmds[i].axis == DEC <==> (i == 0 && moveDec != 0.0)))
      && (moveDec == 0.0 ==> r.mount.turnDn == m.turnDn)
      && (moveRa == 0.0 ==> r.mount.turnRt == m.turnRt)
      && (moveDec != 0.0 ==> r.mount.turnDn == MarkOf(moveDec))
      && (moveRa != 0.0 ==> r.mount.turnRt == MarkOf(moveRa))
  {
    CoarseAxisBacklash(DEC, StepsPerDegDec, m.turnDn, moveDec);
    CoarseAxisBacklash(RA, StepsPerDegRa, m.turnRt, moveRa);
  }

  // ---------------------------------------------------------------------------
  // One cycle

  /** Below the threshold the cycle follows the ephemeris: it ends pointing at
      `(90 - sza, azim)` with the memory `moveOfInterval` leaves. */
  lemma EphemerisMode(m: Mount, f: Frame, sza: real, azim: real)
    requires f.total < RadThreshold
    ensures var r := CycleSpec(m, f, sza, azim);
      && r.mount.altDeg == 90.0 - sza && r.mount.azDeg == azim
      && (90.0 - sza != m.altDeg ==> r.mount.turnDn == MarkOf(90.0 - sza - m.altDeg))
      && (90.0 - sza == m.altDeg ==> r.mount.turnDn == m.turnDn)
      && (azim != m.azDeg ==> r.mount.turnRt == MarkOf(azim - m.azDeg))
      && (azim == m.azDeg ==> r.mount.turnRt == m.turnRt)
  {
    MoveOfIntervalEffect(m, 90.0 - sza - m.altDeg, azim - m.azDeg);
  }

  /** At or above the threshold the cycle fine-tracks: at most one command per
      axis, DEC first, each of at most 50 steps, swing included. */
  lemma FineModeStepBound(m: Mount, f: Frame, sza: real, azim: real)
    requires f.total >= RadThreshold
    ensures var r := CycleSpec(m, f, sza, azim);
      && |r.cmds| == (if f.vertical > Tolerance || f.vertical < -Tolerance then 1 else 0)
                   + (if f.horizontal > Tolerance || f.horizontal < -Tolerance then 1 else 0)
      && (forall i :: 0 <= i < |r.cmds| ==> r.cmds[i].steps <= MaxFineSteps)
      && (forall i :: 0 <= i < |r.cmds| ==>
            (r.cmds[i].axis == DEC <==> (i == 0 && (f.vertical > Tolerance || f.vertical < -Tolerance))))
  {
  }

  /** The DEC half of fine tracking: a vertical error beyond the tolerance issues
      one DEC command, `forward` for a positive error and `backward` for a
      negative one, of `min(50, |err| div 40)` steps plus 19 inside the cap when
      `turnDn` is reversed; `turnDn` then records the direction, and in both
      cases the altitude estimate drops by the steps issued over 173.6. */
  lemma FineDecLaw(m: Mount, vertical: int)
    requires vertical > Tolerance || vertical < -Tolerance
    ensures var dir := if vertical > 0 then Forward else Backward;
      var rev := m.turnDn != CoarseMark(dir);
      var n := Min(MaxFineSteps, (if vertical < 0 then -vertical else vertical) / 40 + (if rev then Swing else 0));
      var r := FineDec(m, vertical);
      && r.cmds == [Command(DEC, dir, n)]
      && 2 <= n <= MaxFineSteps
      && r.mount == m.(altDeg := m.altDeg - Degrees(n, StepsPerDegDec), turnDn := CoarseMark(dir))
      && r.mount.altDeg < m.altDeg
  {
    var dir := if vertical > 0 then Forward else Backward;
    FineStepsDec(vertical, m.turnDn != CoarseMark(dir));
  }

  /** The RA half of fine tracking: a positive horizontal error drives RA
      `forward`, records `turnRt = 0` and lowers the azimuth estimate; a negative
      one drives `backward`, records `turnRt = 1` and raises it; each by
      `min(50, |err| div 20)` steps plus 19 inside the cap on a reversal. */
  lemma FineRaLaw(m: Mount, horizontal: int, sza: real, azim: real)
    requires horizontal > Tolerance || horizontal < -Tolerance
    ensures var dir := if horizontal > 0 then Forward else Backward;
      var mark: Bit := if horizontal > 0 then 0 else 1;
      var rev := m.turnRt != mark;
      var n := Min(MaxFineSteps, (if horizontal < 0 then -horizontal else horizontal) / 20 + (if rev then Swing else 0));
      var r := FineRa(m, horizontal, sza, azim);
      && r.cmds == [Command(RA, dir, n)]
      && 5 <= n <= MaxFineSteps
      && r.mount == m.(azDeg := if horizontal > 0 then m.azDeg - Degrees(n, StepsPerDegRa)
                                else m.azDeg + Degrees(n, StepsPerDegRa),
                       turnRt := mark)
  {
    var mark: Bit := if horizontal > 0 then 0 else 1;
    FineStepsRa(horizontal, m.turnRt != mark);
  }

  /** Resynchronisation depends on the horizontal error alone: when the Sun is
      seen and `|horizontal| <= 100`, the cycle ends pointing at the ephemeris
      position whatever the vertical error was, after issuing the DEC command,
      if any, and with `turnRt` untouched. */
  lemma ResyncWhenCentred(m: Mount, f: Frame, sza: real, azim: real)
    requires f.total >= RadThreshold
    requires -Tolerance <= f.horizontal <= Tolerance
    ensures var r := CycleSpec(m, f, sza, azim);
      && r.mount.altDeg == 90.0 - sza && r.mount.azDeg == azim
      && r.mount.turnRt == m.turnRt
      && r.cmds == FineDec(m, f.vertical).cmds
  {
  }

  /** The threshold is exclusive on the ephemeris side: a frame with total 2999
      moves a mount parked at (0, 0) to the Sun at altitude 90 and azimuth 90
      (15624 DEC steps and 48933 RA steps, both `backward`), while the same frame
      with total 3000 and no pointing error issues no command and only resets the
      estimate. */
  lemma ThresholdIsExclusive()
    ensures CycleSpec(Mount(0.0, 0.0, 0, 0), Frame(0, 0, 2999), 0.0, 90.0).cmds ==
      [Command(DEC, Backward, 15624), Command(RA, Backward, 48933)]
    ensures CycleSpec(Mount(0.0, 0.0, 0, 0), Frame(0, 0, 3000), 0.0, 90.0) ==
      Step(Mount(90.0, 90.0, 0, 0), [])
  {
    var m := Mount(0.0, 0.0, 0, 0);
    assert StepsPerDegDec * 90.0 == 15624.0;
    assert StepsPerDegRa * 90.0 == 48933.0;
    assert CoarseSteps(StepsPerDegDec, 90.0, false) == 15624;
    assert CoarseSteps(StepsPerDegRa, 90.0, false) == 48933;
    assert CycleSpec(m, Frame(0, 0, 2999), 0.0, 90.0) == MoveOfInterval(m, 90.0, 90.0);
    assert FineDec(m, 0) == Step(m, []);
    assert FineRa(m, 0, 0.0, 90.0) == Step(Mount(90.0, 90.0, 0, 0), []);
  }

  /** The two RA memory conventions disagree: after a fine `forward` RA step, a
      `moveOfInterval` RA move with a negative delta, also `forward`, is charged
      the swing although the axis keeps its direction. */
  lemma RaConventionsDisagree(m: Mount, horizontal: int, moveRa: real, sza: real, azim: real)
    requires horizontal > Tolerance && moveRa < 0.0
    ensures var fine := FineRa(m, horizontal, sza, azim);
      var coarse := MoveOfInterval(fine.mount, 0.0, moveRa);
      && fine.cmds[0].dir == Forward && coarse.cmds[0].dir == Forward
      && coarse.cmds[0].steps == MoveSteps(StepsPerDegRa, moveRa, true)
  {
    var fine := FineRa(m, horizontal, sza, azim);
    CoarseAxisBacklash(RA, StepsPerDegRa, fine.mount.turnRt, moveRa);
  }
}
