/**
  The two unipolar stepper motors of the mount, each driven through four GPIO
  output lines with a fixed full-step phase table (two coils energised per
  phase). A `Gpio` object records, in order, every level written to an output
  line; the level a line holds is the last value written to it.

  The pacing sleeps between phases are not part of this model.
*/
module Stepper {
  import opened Wrappers

  /** One call of `GPIO.output(pin, level)`. */
  datatype PinWrite = PinWrite(pin: int, high: bool)

  /** Board pin numbers of the RA motor's four coils. */
  const RaPins: seq<int> := [31, 33, 35, 37]
  /** Board pin numbers of the DEC motor's four coils. */
  const DecPins: seq<int> := [32, 36, 38, 40]

  /** The levels of one motor's four coils in one phase. */
  type Coils = c: seq<bool> | |c| == 4 witness [false, false, false, false]

  /** The phases `forward` applies per step: (1,1,0,0), (0,1,1,0), (0,0,1,1), (1,0,0,1). */
  const ForwardPhases: seq<Coils> :=
    [[true, true, false, false], [false, true, true, false],
     [false, false, true, true], [true, false, false, true]]

  /** The phases `backward` applies per step: the forward table in reverse order. */
  const BackwardPhases: seq<Coils> :=
    [[true, false, false, true], [false, false, true, true],
     [false, true, true, false], [true, true, false, false]]

  /** The output lines `setStep` writes for a motor name; none for an unknown name. */
  function MotorPins(motor: string): (pins: seq<int>)
    ensures motor == "RA" ==> pins == RaPins
    ensures motor == "DEC" ==> pins == DecPins
    ensures motor != "RA" && motor != "DEC" ==> pins == []
  {
    if motor == "RA" then RaPins else if motor == "DEC" then DecPins else []
  }

  /** Number of energised coils in a phase. */
  function Energised(c: seq<bool>): nat
  {
    if c == [] then 0 else (if c[0] then 1 else 0) + Energised(c[1..])
  }

  /** The writes of one `setStep(motor, w1, w2, w3, w4)`: the four coil levels in
      pin order, or nothing for an unknown motor name. */
  function SetStepWrites(motor: string, c: Coils): (ws: seq<PinWrite>)
    ensures |ws| == |MotorPins(motor)|
    ensures forall i :: 0 <= i < |ws| ==> ws[i] == PinWrite(MotorPins(motor)[i], c[i])
  {
    var p := MotorPins(motor);
    if p == [] then []
    else [PinWrite(p[0], c[0]), PinWrite(p[1], c[1]), PinWrite(p[2], c[2]), PinWrite(p[3], c[3])]
  }

  /** The writes of one step: `setStep` once per phase, in table order. */
  function PhaseWrites(motor: string, phases: seq<Coils>): seq<PinWrite>
  {
    if phases == [] then [] else SetStepWrites(motor, phases[0]) + PhaseWrites(motor, phases[1..])
  }

  /** The writes of `steps` consecutive steps. */
  function StepWrites(motor: string, phases: seq<Coils>, steps: nat): seq<PinWrite>
  {
    if steps == 0 then [] else StepWrites(motor, phases, steps - 1) + PhaseWrites(motor, phases)
  }

  /** The closing writes of `forward` and `backward`: every RA line, then every
      DEC line, set low. */
  function ReleaseWrites(): seq<PinWrite>
  {
    [PinWrite(31, false), PinWrite(33, false), PinWrite(35, false), PinWrite(37, false),
     PinWrite(32, false), PinWrite(36, false), PinWrite(38, false), PinWrite(40, false)]
  }

  /** Everything `forward(motor, delay, steps)` writes. */
  function ForwardWrites(motor: string, steps: nat): seq<PinWrite>
  {
    StepWrites(motor, ForwardPhases, steps) + ReleaseWrites()
  }

  /** Everything `backward(motor, delay, steps)` writes. */
  function BackwardWrites(motor: string, steps: nat): seq<PinWrite>
  {
    StepWrites(motor, BackwardPhases, steps) + ReleaseWrites()
  }

  /** The level a line holds after the writes `ws`: the last value written to it. */
  function LastLevel(ws: seq<PinWrite>, pin: int): Option<bool>
  {
    if ws == [] then None
    else if ws[|ws| - 1].pin == pin then Some(ws[|ws| - 1].high)
    else LastLevel(ws[..|ws| - 1], pin)
  }

  /** Every phase of both tables energises exactly two coils, and the backward
      table is the forward table reversed. */
  lemma PhaseTables()
    ensures forall i :: 0 <= i < 4 ==> Energised(ForwardPhases[i]) == 2 && Energised(BackwardPhases[i]) == 2
    ensures forall i :: 0 <= i < 4 ==> BackwardPhases[i] == ForwardPhases[3 - i]
  {
    forall i | 0 <= i < 4
      ensures Energised(ForwardPhases[i]) == 2 && Energised(BackwardPhases[i]) == 2
    {
      EnergisedOfFour(ForwardPhases[i]);
      EnergisedOfFour(BackwardPhases[i]);
    }
    assert BackwardPhases == [ForwardPhases[3], ForwardPhases[2], ForwardPhases[1], ForwardPhases[0]];
  }

  /** The energised count of a four-coil phase, coil by coil. */
  lemma EnergisedOfFour(c: seq<bool>)
    requires |c| == 4
    ensures Energised(c) == (if c[0] then 1 else 0) + (if c[1] then 1 else 0) + (if c[2] then 1 else 0) + (if c[3] then 1 else 0)
  {
    var c1 := c[1..];
    var c2 := c1[1..];
    var c3 := c2[1..];
    assert c3[1..] == [];
    assert Energised(c3) == (if c[3] then 1 else 0);
    assert Energised(c2) == (if c[2] then 1 else 0) + Energised(c3);
    assert Energised(c1) == (if c[1] then 1 else 0) + Energised(c2);
  }

  /** Writes appended after a write to `pin` decide its level only if they write it too. */
  lemma {:induction false} LastLevelAppend(ws: seq<PinWrite>, tail: seq<PinWrite>, pin: int)
    ensures LastLevel(ws + tail, pin) ==
      (if LastLevel(tail, pin).Some? then LastLevel(tail, pin) else LastLevel(ws, pin))
    decreases |tail|
  {
    if tail != [] {
      var all := ws + tail;
      assert all[..|all| - 1] == ws + tail[..|tail| - 1];
      LastLevelAppend(ws, tail[..|tail| - 1], pin);
    } else {
      assert ws + tail == ws;
    }
  }

  /** One step writes only the chosen motor's lines, 4 writes per phase. */
  lemma {:induction false} PhaseWritesPins(motor: string, phases: seq<Coils>)
    ensures |PhaseWrites(motor, phases)| == |MotorPins(motor)| * |phases|
    ensures forall i :: 0 <= i < |PhaseWrites(motor, phases)| ==> PhaseWrites(motor, phases)[i].pin in MotorPins(motor)
  {
    if phases != [] {
      PhaseWritesPins(motor, phases[1..]);
    }
  }

  /** While stepping, only the chosen motor's lines are written: 16 writes per step
      for RA or DEC, and none at all for an unknown motor name. */
  lemma {:induction false} StepWritesPins(motor: string, phases: seq<Coils>, steps: nat)
    ensures |StepWrites(motor, phases, steps)| == |MotorPins(motor)| * |phases| * steps
    ensures forall i :: 0 <= i < |StepWrites(motor, phases, steps)| ==> StepWrites(motor, phases, steps)[i].pin in MotorPins(motor)
  {
    if steps > 0 {
      StepWritesPins(motor, phases, steps - 1);
      PhaseWritesPins(motor, phases);
      var n := |MotorPins(motor)| * |phases|;
      assert n * (steps - 1) + n == n * steps;
    }
  }

  /** After `forward` or `backward`, whatever the step count (zero included), all
      eight RA and DEC lines are low. */
  lemma ReleasedAfterMove(before: seq<PinWrite>, motor: string, steps: nat)
    ensures forall p :: p in RaPins + DecPins ==>
      LastLevel(before + ForwardWrites(motor, steps), p) == Some(false) &&
      LastLevel(before + BackwardWrites(motor, steps), p) == Some(false)
  {
    AppendAssoc(before, StepWrites(motor, ForwardPhases, steps), ReleaseWrites());
    AppendAssoc(before, StepWrites(motor, BackwardPhases, steps), ReleaseWrites());
    forall p | p in RaPins + DecPins
      ensures LastLevel(before + ForwardWrites(motor, steps), p) == Some(false)
      ensures LastLevel(before + BackwardWrites(motor, steps), p) == Some(false)
    {
      ReleasedLast(p);
      LastLevelAppend(before + StepWrites(motor, ForwardPhases, steps), ReleaseWrites(), p);
      LastLevelAppend(before + StepWrites(motor, BackwardPhases, steps), ReleaseWrites(), p);
    }
  }

  /** Writes that all set lines low leave every line they touch low. */
  lemma {:induction false} AllLowLastLevel(ws: seq<PinWrite>, pin: int)
    requires forall i :: 0 <= i < |ws| ==> !ws[i].high
    requires exists i :: 0 <= i < |ws| && ws[i].pin == pin
    ensures LastLevel(ws, pin) == Some(false)
    decreases |ws|
  {
    if ws[|ws| - 1].pin != pin {
      var i :| 0 <= i < |ws| && ws[i].pin == pin;
      assert ws[..|ws| - 1][i].pin == pin;
      AllLowLastLevel(ws[..|ws| - 1], pin);
    }
  }

  /** The release writes leave each of the eight lines low. */
  lemma ReleasedLast(p: int)
    requires p in RaPins + DecPins
    ensures LastLevel(ReleaseWrites(), p) == Some(false)
  {
    var r := ReleaseWrites();
    var k :| 0 <= k < 8 && (RaPins + DecPins)[k] == p;
    assert r[k].pin == p;
    AllLowLastLevel(r, p);
  }

  lemma AppendAssoc<T>(a: seq<T>, b: seq<T>, c: seq<T>)
    ensures (a + b) + c == a + (b + c)
  {
  }

  /** The GPIO output lines of the board, as a log of the writes made to them. */
  class Gpio {
    ghost var writes: seq<PinWrite>

    constructor ()
      ensures writes == []
    {
      writes := [];
    }

    /** The level line `pin` currently holds, if it was ever written. */
    ghost function Level(pin: int): Option<bool>
      reads this
    {
      LastLevel(writes, pin)
    }

    /** `GPIO.output(pin, high)`. */
    method Output(pin: int, high: bool)
      modifies this
      ensures writes == old(writes) + [PinWrite(pin, high)]
    {
      writes := writes + [PinWrite(pin, high)];
    }

    /** `setStep(motor, w1, w2, w3, w4)`: the four coil levels on the motor's lines. */
    method SetStep(motor: string, c: Coils)
      modifies this
      ensures writes == old(writes) + SetStepWrites(motor, c)
    {
      if motor == "RA" {
        Output(RaPins[0], c[0]);
        Output(RaPins[1], c[1]);
        Output(RaPins[2], c[2]);
        Output(RaPins[3], c[3]);
      } else if motor == "DEC" {
        Output(DecPins[0], c[0]);
        Output(DecPins[1], c[1]);
        Output(DecPins[2], c[2]);
        Output(DecPins[3], c[3]);
      }
    }

    /** One pass through the phase table: `setStep` with each row in turn. */
    method RunPhaseTable(motor: string, phases: seq<Coils>)
      modifies this
      ensures writes == old(writes) + PhaseWrites(motor, phases)
    {
      for k := 0 to |phases|
        invariant writes == old(writes) + PhaseWrites(motor, phases[..k])
      {
        SetStep(motor, phases[k]);
        PhaseWritesSnoc(motor, phases[..k], phases[k]);
        AppendAssoc(old(writes), PhaseWrites(motor, phases[..k]), SetStepWrites(motor, phases[k]));
        assert phases[..k + 1] == phases[..k] + [phases[k]];
      }
      assert phases[..|phases|] == phases;
    }

    /** `steps` repetitions of the phase table. */
    method RunPhases(motor: string, phases: seq<Coils>, steps: nat)
      modifies this
      ensures writes == old(writes) + StepWrites(motor, phases, steps)
    {
      for i := 0 to steps
        invariant writes == old(writes) + StepWrites(motor, phases, i)
      {
        ghost var before := writes;
        RunPhaseTable(motor, phases);
        assert StepWrites(motor, phases, i + 1) == StepWrites(motor, phases, i) + PhaseWrites(motor, phases);
        AppendAssoc(old(writes), StepWrites(motor, phases, i), PhaseWrites(motor, phases));
      }
    }

    /** The closing loops of `forward` and `backward`: every RA line, then every
        DEC line, set low. */
    method ReleaseAll()
      modifies this
      ensures writes == old(writes) + ReleaseWrites()
    {
      for k := 0 to 4
        invariant writes == old(writes) + seq(k, i requires 0 <= i < k => PinWrite(RaPins[i], false))
      {
        Output(RaPins[k], false);
      }
      ghost var mid := writes;
      for k := 0 to 4
        invariant writes == mid + seq(k, i requires 0 <= i < k => PinWrite(DecPins[i], false))
      {
        Output(DecPins[k], false);
      }
    }

    /** `forward(motor, delay, steps)`. */
    method Forward(motor: string, steps: nat)
      modifies this
      ensures writes == old(writes) + ForwardWrites(motor, steps)
    {
      RunPhases(motor, ForwardPhases, steps);
      ReleaseAll();
    }

    /** `backward(motor, delay, steps)`. */
    method Backward(motor: string, steps: nat)
      modifies this
      ensures writes == old(writes) + BackwardWrites(motor, steps)
    {
      RunPhases(motor, BackwardPhases, steps);
      ReleaseAll();
    }
  }

  /** Extending the phase list by one phase extends its writes by one `setStep`. */
  lemma {:induction false} PhaseWritesSnoc(motor: string, phases: seq<Coils>, c: Coils)
    ensures PhaseWrites(motor, phases + [c]) == PhaseWrites(motor, phases) + SetStepWrites(motor, c)
    decreases |phases|
  {
    if phases == [] {
      assert [] + [c] == [c];
    } else {
      assert (phases + [c])[1..] == phases[1..] + [c];
      PhaseWritesSnoc(motor, phases[1..], c);
    }
  }
}
