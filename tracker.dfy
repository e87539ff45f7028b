/**
  The tracking controller as the source runs it: the module-level state
  (`altit_deg`, `azim_deg`, `turnDn`, `turnRt`) held by a `Tracker` object that
  drives the motors through the board's GPIO lines. Each method is proved
  against the control law of module `Tracking`.

  The ephemeris is an input: each method that needs the Sun's position takes
  the zenith angle `sza` and azimuth `azim` the ephemeris returned.
*/
module Tracker {
  import opened Wrappers
  import opened Stepper
  import opened Sensor
  import opened Tracking

  /** The ADC gain the tracker runs at (`GAIN = 2`). */
  const Gain: real := 2.0

  /** The motor name `setStep` is called with for an axis. */
  function MotorName(axis: Axis): string
  {
    match axis
    case RA => "RA"
    case DEC => "DEC"
  }

  /** The GPIO writes of one motor command. */
  function CommandWrites(c: Command): seq<PinWrite>
  {
    match c.dir
    case Forward => ForwardWrites(MotorName(c.axis), c.steps)
    case Backward => BackwardWrites(MotorName(c.axis), c.steps)
  }

  /** The GPIO writes of a sequence of motor commands, in order. */
  function Writes(cmds: seq<Command>): seq<PinWrite>
  {
    if cmds == [] then [] else CommandWrites(cmds[0]) + Writes(cmds[1..])
  }

  lemma {:induction false} WritesAppend(a: seq<Command>, b: seq<Command>)
    ensures Writes(a + b) == Writes(a) + Writes(b)
    decreases |a|
  {
    if a == [] {
      assert a + b == b;
    } else {
      assert (a + b)[0] == a[0] && (a + b)[1..] == a[1..] + b;
      WritesAppend(a[1..], b);
      AppendAssoc(CommandWrites(a[0]), Writes(a[1..]), Writes(b));
    }
  }

  /** Every command leaves all eight motor lines low once it has run, so after
      any non-empty command sequence the motors are de-energised. */
  lemma MotorsReleasedAfter(before: seq<PinWrite>, cmds: seq<Command>)
    requires cmds != []
    ensures forall p :: p in RaPins + DecPins ==> LastLevel(before + Writes(cmds), p) == Some(false)
  {
    var init, c := cmds[..|cmds| - 1], cmds[|cmds| - 1];
    assert cmds == init + [c];
    WritesAppend(init, [c]);
    assert Writes([c]) == CommandWrites(c);
    var prefix := before + Writes(init);
    AppendAssoc(before, Writes(init), CommandWrites(c));
    ReleasedAfterMove(prefix, MotorName(c.axis), c.steps);
  }

  class Tracker {
    /** Estimated DEC (altitude) pointing in degrees, `altit_deg`. */
    var altDeg: real
    /** Estimated RA (azimuth) pointing in degrees, `azim_deg`. */
    var azDeg: real
    /** DEC backlash memory: 1 after moving down (`forward`), 0 after moving up. */
    var turnDn: Bit
    /** RA backlash memory. */
    var turnRt: Bit
    /** The board's output lines. */
    const gpio: Gpio
    /** Every motor command issued so far, in order. */
    ghost var commands: seq<Command>

    /** The controller state as a value of the control law. */
    function State(): Mount
      reads this
    {
      Mount(altDeg, azDeg, turnDn, turnRt)
    }

    /** Start-up: the operator's pointing estimate and both memories at 0. */
    constructor (gpio: Gpio, altDeg: real, azDeg: real)
      ensures State() == Mount(altDeg, azDeg, 0, 0)
      ensures this.gpio == gpio && commands == []
    {
      this.altDeg := altDeg;
      this.azDeg := azDeg;
      this.turnDn := 0;
      this.turnRt := 0;
      this.gpio := gpio;
      this.commands := [];
    }

    /** Run one motor command: `forward` or `backward` on the axis's motor. */
    method Drive(c: Command)
      modifies this`commands, gpio
      ensures commands == old(commands) + [c]
      ensures gpio.writes == old(gpio.writes) + Writes([c])
    {
      assert Writes([c]) == CommandWrites(c);
      if c.dir == Forward {
        gpio.Forward(MotorName(c.axis), c.steps);
      } else {
        gpio.Backward(MotorName(c.axis), c.steps);
      }
      commands := commands + [c];
    }

    /** The DEC half of `moveOfInterval`: up (`backward`) for a positive delta,
        down (`forward`) for a negative one, nothing for zero. */
    method MoveDec(moveDec: real)
      modifies this`turnDn, this`commands, gpio
      ensures var r := CoarseAxis(DEC, StepsPerDegDec, old(turnDn), moveDec);
        && turnDn == r.0
        && commands == old(commands) + r.1
        && gpio.writes == old(gpio.writes) + Writes(r.1)
    {
      var nstep: nat;
      ghost var mem := turnDn;
      if moveDec > 0.0 {
        if turnDn == 0 {
          nstep := Trunc(Abs(StepsPerDegDec * moveDec));
        } else {
          nstep := Trunc(Abs(StepsPerDegDec * moveDec) + Swing as real);
          turnDn := 0;
        }
        assert nstep == CoarseSteps(StepsPerDegDec, moveDec, mem != CoarseMark(Backward));
        Drive(Command(DEC, Backward, nstep));
      } else if moveDec < 0.0 {
        var mag := -moveDec;
        if turnDn == 1 {
          nstep := Trunc(Abs(StepsPerDegDec * mag));
        } else {
          nstep := Trunc(Abs(StepsPerDegDec * mag) + Swing as real);
          turnDn := 1;
        }
        assert nstep == CoarseSteps(StepsPerDegDec, mag, mem != CoarseMark(Forward));
        Drive(Command(DEC, Forward, nstep));
      }
    }

    /** The RA half of `moveOfInterval`: `backward` for a positive delta,
        `forward` for a negative one, nothing for zero. */
    method MoveRa(moveRa: real)
      modifies this`turnRt, this`commands, gpio
      ensures var r := CoarseAxis(RA, StepsPerDegRa, old(turnRt), moveRa);
        && turnRt == r.0
        && commands == old(commands) + r.1
        && gpio.writes == old(gpio.writes) + Writes(r.1)
    {
      var nstep: nat;
      ghost var mem := turnRt;
      if moveRa > 0.0 {
        if turnRt == 0 {
          nstep := Trunc(Abs(StepsPerDegRa * moveRa));
        } else {
          nstep := Trunc(Abs(StepsPerDegRa * moveRa) + Swing as real);
          turnRt := 0;
        }
        assert nstep == CoarseSteps(StepsPerDegRa, moveRa, mem != CoarseMark(Backward));
        Drive(Command(RA, Backward, nstep));
      } else if moveRa < 0.0 {
        var mag := -moveRa;
        if turnRt == 1 {
          nstep := Trunc(Abs(StepsPerDegRa * mag));
        } else {
          nstep := Trunc(Abs(StepsPerDegRa * mag) + Swing as real);
          turnRt := 1;
        }
        assert nstep == CoarseSteps(StepsPerDegRa, mag, mem != CoarseMark(Forward));
        Drive(Command(RA, Forward, nstep));
      }
    }

    /** `moveOfInterval(initDEC, initRA, moveDEC, moveRA)`. */
    method MoveOfInterval(initDec: real, initRa: real, moveDec: real, moveRa: real) returns (dec: real, ra: real)
      modifies this`turnDn, this`turnRt, this`commands, gpio
      ensures var r := Tracking.MoveOfInterval(Mount(initDec, initRa, old(turnDn), old(turnRt)), moveDec, moveRa);
        && dec == r.mount.altDeg && ra == r.mount.azDeg
        && turnDn == r.mount.turnDn && turnRt == r.mount.turnRt
        && commands == old(commands) + r.cmds
        && gpio.writes == old(gpio.writes) + Writes(r.cmds)
    {
      ghost var decPart := CoarseAxis(DEC, StepsPerDegDec, turnDn, moveDec);
      ghost var raPart := CoarseAxis(RA, StepsPerDegRa, turnRt, moveRa);
      ghost var w0, c0 := gpio.writes, commands;
      ghost var wd, wr := Writes(decPart.1), Writes(raPart.1);
      dec := initDec + moveDec;
      ra := initRa + moveRa;
      MoveDec(moveDec);
      assert gpio.writes == w0 + wd && commands == c0 + decPart.1;
      ghost var w1, c1 := gpio.writes, commands;
      MoveRa(moveRa);
      assert gpio.writes == w1 + wr && commands == c1 + raPart.1;
      AppendAssoc(w0, wd, wr);
      AppendAssoc(c0, decPart.1, raPart.1);
      WritesAppend(decPart.1, raPart.1);
    }

    /** `moveToPosition(initDEC, initRA, finalDEC, finalRA)`. */
    method MoveToPosition(initDec: real, initRa: real, finalDec: real, finalRa: real) returns (dec: real, ra: real)
      modifies this`turnDn, this`turnRt, this`commands, gpio
      ensures dec == finalDec && ra == finalRa
      ensures var r := Tracking.MoveToPosition(Mount(initDec, initRa, old(turnDn), old(turnRt)), finalDec, finalRa);
        && turnDn == r.mount.turnDn && turnRt == r.mount.turnRt
        && commands == old(commands) + r.cmds
        && gpio.writes == old(gpio.writes) + Writes(r.cmds)
    {
      dec, ra := MoveOfInterval(initDec, initRa, finalDec - initDec, finalRa - initRa);
    }

    /** The start-up move to the ephemeris position (after the operator entered
        the initial pointing). */
    method Acquire(sza: real, azim: real)
      modifies this, gpio
      ensures var r := Tracking.MoveToPosition(old(State()), 90.0 - sza, azim);
        && State() == r.mount
        && commands == old(commands) + r.cmds
        && gpio.writes == old(gpio.writes) + Writes(r.cmds)
    {
      altDeg, azDeg := MoveToPosition(altDeg, azDeg, 90.0 - sza, azim);
    }

    /** The DEC half of fine tracking (lines 283-303 of the loop body): the step
        count and the new estimate, then the `forward` or `backward` call. */
    method FineTrackDec(vertical: int)
      modifies this`altDeg, this`turnDn, this`commands, gpio
      ensures var r := FineDec(old(State()), vertical);
        && State() == r.mount
        && commands == old(commands) + r.cmds
        && gpio.writes == old(gpio.writes) + Writes(r.cmds)
    {
      if vertical > Tolerance {
        var c := FineStepDec(vertical, Forward);
        Drive(c);
      } else if vertical < -Tolerance {
        var c := FineStepDec(vertical, Backward);
        Drive(c);
      }
    }

    /** One out-of-tolerance DEC branch: `forward` (down) for a positive error,
        `backward` (up) for a negative one, with the swing on a reversal. Updates
        the memory and the altitude estimate and returns the command to run. */
    method FineStepDec(vertical: int, d: Dir) returns (c: Command)
      requires if d == Forward then vertical > Tolerance else vertical < -Tolerance
      modifies this`altDeg, this`turnDn
      ensures var r := FineDec(old(State()), vertical);
        && State() == r.mount
        && r.cmds == [c]
    {
      var nstep: nat;
      ghost var m := State();
      var law := FineLaw(vertical, DecDivisor);
      if turnDn == FineMark(DEC, d) {
        nstep := Min(MaxFineSteps, Trunc(law));
      } else {
        nstep := Min(MaxFineSteps, Trunc(law + Swing as real));
        turnDn := FineMark(DEC, d);
      }
      assert nstep == FineSteps(vertical, DecDivisor, m.turnDn != FineMark(DEC, d));
      c := Command(DEC, d, nstep);
      altDeg := altDeg - Degrees(nstep, StepsPerDegDec);
    }

    /** The RA half of fine tracking and the resynchronisation in its `else`
        (lines 306-335 of the loop body). */
    method FineTrackRa(horizontal: int, sza: real, azim: real)
      modifies this`altDeg, this`azDeg, this`turnRt, this`commands, gpio
      ensures var r := FineRa(old(State()), horizontal, sza, azim);
        && State() == r.mount
        && commands == old(commands) + r.cmds
        && gpio.writes == old(gpio.writes) + Writes(r.cmds)
    {
      ghost var m := State();
      if horizontal > Tolerance {
        assert FineRa(m, horizontal, sza, azim) == FineRa(m, horizontal, 0.0, 0.0);
        var c := FineStepRa(horizontal, Forward);
        Drive(c);
      } else if horizontal < -Tolerance {
        assert FineRa(m, horizontal, sza, azim) == FineRa(m, horizontal, 0.0, 0.0);
        var c := FineStepRa(horizontal, Backward);
        Drive(c);
      } else {
        // The Sun is centred: the ephemeris position becomes the estimate.
        altDeg := 90.0 - sza;
        azDeg := azim;
      }
    }

    /** One out-of-tolerance RA branch: `forward` for a positive error, which
        lowers the azimuth estimate, `backward` for a negative one, which raises
        it. Updates the memory and the estimate and returns the command to run. */
    method FineStepRa(horizontal: int, d: Dir) returns (c: Command)
      requires if d == Forward then horizontal > Tolerance else horizontal < -Tolerance
      modifies this`azDeg, this`turnRt
      ensures var r := FineRa(old(State()), horizontal, 0.0, 0.0);
        && State() == r.mount
        && r.cmds == [c]
    {
      var nstep: nat;
      ghost var m := State();
      var law := FineLaw(horizontal, RaDivisor);
      if turnRt == FineMark(RA, d) {
        nstep := Min(MaxFineSteps, Trunc(law));
      } else {
        nstep := Min(MaxFineSteps, Trunc(law + Swing as real));
        turnRt := FineMark(RA, d);
      }
      assert nstep == FineSteps(horizontal, RaDivisor, m.turnRt != FineMark(RA, d));
      c := Command(RA, d, nstep);
      if d == Forward {
        azDeg := azDeg - Degrees(nstep, StepsPerDegRa);
      } else {
        azDeg := azDeg + Degrees(nstep, StepsPerDegRa);
      }
    }

    /** One iteration of the main loop: read the four channels (`None` for a
        read that raised an I/O error), correct them at the configured gain,
        then follow the ephemeris or fine-track. */
    method Cycle(samples: seq<Option<int>>, sza: real, azim: real)
      requires |samples| == 4
      modifies this, gpio
      ensures Sense(samples, Gain).Some?
      ensures var r := CycleSpec(old(State()), Sense(samples, Gain).value, sza, azim);
        && State() == r.mount
        && commands == old(commands) + r.cmds
        && gpio.writes == old(gpio.writes) + Writes(r.cmds)
    {
      var values := ReadChannels(samples);
      assert values == ChannelValues(samples);
      var v := BiasCorrection(values, Gain).value;
      var vertical := (v[0] + v[2]) - (v[1] + v[3]);
      var horizontal := (v[1] + v[2]) - (v[0] + v[3]);
      var total := v[0] + v[1] + v[2] + v[3];
      assert Sense(samples, Gain) == Some(Frame(vertical, horizontal, total));
      Follow(Frame(vertical, horizontal, total), sza, azim);
    }

    /** The branch of the loop body after the frame is known: the ephemeris
        below the threshold, fine tracking from it on. */
    method Follow(f: Frame, sza: real, azim: real)
      modifies this, gpio
      ensures var r := CycleSpec(old(State()), f, sza, azim);
        && State() == r.mount
        && commands == old(commands) + r.cmds
        && gpio.writes == old(gpio.writes) + Writes(r.cmds)
    {
      if f.total < RadThreshold {
        altDeg, azDeg := MoveToPosition(altDeg, azDeg, 90.0 - sza, azim);
      } else {
        FineTrack(f, sza, azim);
      }
    }

    /** Fine tracking from the radiation threshold on: the DEC half, then the
        RA half. */
    method FineTrack(f: Frame, sza: real, azim: real)
      requires f.total >= RadThreshold
      modifies this`altDeg, this`azDeg, this`turnDn, this`turnRt, this`commands, gpio
      ensures var r := CycleSpec(old(State()), f, sza, azim);
        && State() == r.mount
        && commands == old(commands) + r.cmds
        && gpio.writes == old(gpio.writes) + Writes(r.cmds)
    {
      ghost var d := FineDec(State(), f.vertical);
      ghost var e := FineRa(d.mount, f.horizontal, sza, azim);
      ghost var w0, c0 := gpio.writes, commands;
      ghost var wd, we := Writes(d.cmds), Writes(e.cmds);
      FineTrackDec(f.vertical);
      assert State() == d.mount && gpio.writes == w0 + wd && commands == c0 + d.cmds;
      ghost var w1, c1 := gpio.writes, commands;
      FineTrackRa(f.horizontal, sza, azim);
      assert gpio.writes == w1 + we && commands == c1 + e.cmds;
      AppendAssoc(w0, wd, we);
      AppendAssoc(c0, d.cmds, e.cmds);
      WritesAppend(d.cmds, e.cmds);
    }
  }

  // ---------------------------------------------------------------------------
  // The loop as written: `datetime.datetime.now()` at lines 275 and 329 looks up
  // an attribute the imported `datetime` class does not have.

  /** How one iteration of the main loop ends as the source is written: it
      continues with a new state, or raises, ending the loop (the `finally`
      clause then releases the GPIO lines), after the commands already issued. */
  datatype Outcome = Continued(step: Step) | Raised(issued: seq<Command>)

  /** One iteration as written: the ephemeris branch raises before it moves, and
      the centred branch raises after the DEC command of that cycle. */
  function CycleAsWritten(m: Mount, f: Frame, sza: real, azim: real): Outcome
  {
    if f.total < RadThreshold then Raised([])
    else
      var d := FineDec(m, f.vertical);
      if f.horizontal > Tolerance || f.horizontal < -Tolerance then
        var e := FineRa(d.mount, f.horizontal, sza, azim);
        Continued(Step(e.mount, d.cmds + e.cmds))
      else Raised(d.cmds)
  }

  /** As written, the loop survives a cycle only while the Sun is seen and off
      centre horizontally, and then it does what the corrected cycle does: it
      never follows the ephemeris and never resynchronises. */
  lemma AsWrittenNeverReachesEphemeris(m: Mount, f: Frame, sza: real, azim: real)
    ensures CycleAsWritten(m, f, sza, azim).Continued? <==>
      (f.total >= RadThreshold && (f.horizontal > Tolerance || f.horizontal < -Tolerance))
    ensures CycleAsWritten(m, f, sza, azim).Continued? ==>
      CycleAsWritten(m, f, sza, azim).step == CycleSpec(m, f, sza, azim)
  {
  }

  /** A cycle in which every ADC read fails reads a total of 150 at gain 2: as
      written it raises without moving, where the corrected cycle moves the mount
      to the ephemeris position. */
  lemma AsWrittenStopsWhenReadsFail(m: Mount, sza: real, azim: real)
    ensures Sense([None, None, None, None], Gain) == Some(Frame(-156, -44, 150))
    ensures CycleAsWritten(m, Frame(-156, -44, 150), sza, azim) == Raised([])
    ensures var r := CycleSpec(m, Frame(-156, -44, 150), sza, azim);
      r.mount.altDeg == 90.0 - sza && r.mount.azDeg == azim
  {
    AllReadsFailed(Gain);
    EphemerisMode(m, Frame(-156, -44, 150), sza, azim);
  }

  /** Scenario: readings (4078, 4000, 4000, 3922) at the tracker's gain of 2
      correct to the centred frame (0, -44, 16150) with the Sun seen: the
      corrected cycle issues no command and resynchronises, while the cycle as
      written raises at the resynchronisation. */
  lemma CentredFrame(m: Mount, sza: real, azim: real)
    ensures Sense([Some(4078), Some(4000), Some(4000), Some(3922)], Gain) == Some(Frame(0, -44, 16150))
    ensures var f := Frame(0, -44, 16150);
      && CycleSpec(m, f, sza, azim) == Step(m.(altDeg := 90.0 - sza, azDeg := azim), [])
      && CycleAsWritten(m, f, sza, azim) == Raised([])
  {
    var samples := [Some(4078), Some(4000), Some(4000), Some(3922)];
    assert ChannelValues(samples) == [4078, 4000, 4000, 3922];
    CorrectionShiftsFrame([4078, 4000, 4000, 3922], Gain);
  }
}
