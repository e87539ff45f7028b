/**
  The four-quadrant photodiode read through a four-channel ADC: per-channel
  reads that may fail, the gain-dependent additive bias correction, and the
  three diagonal combinations the controller steers by.
*/
module Sensor {
  import opened Wrappers

  /** The readings of one cycle: what each corrected channel measured, and the
      vertical error, horizontal error and total signal derived from them. */
  datatype Frame = Frame(vertical: int, horizontal: int, total: int)

  /** `(v0 + v2) - (v1 + v3)`: the DEC (up/down) pointing error. */
  function Vertical(v: seq<int>): int
    requires |v| == 4
  {
    (v[0] + v[2]) - (v[1] + v[3])
  }

  /** `(v1 + v2) - (v0 + v3)`: the RA (left/right) pointing error. */
  function Horizontal(v: seq<int>): int
    requires |v| == 4
  {
    (v[1] + v[2]) - (v[0] + v[3])
  }

  /** `sum(values)`: the total signal on the detector. */
  function Total(v: seq<int>): int
    requires |v| == 4
  {
    v[0] + v[1] + v[2] + v[3]
  }

  function FrameOf(v: seq<int>): Frame
    requires |v| == 4
  {
    Frame(Vertical(v), Horizontal(v), Total(v))
  }

  /** The bias coefficient row for a gain: defined for 2/3, 1, 2, 4, 8 and 16 only. */
  function BiasCoefficients(gain: real): (r: Option<seq<int>>)
    ensures r.Some? <==> gain in {2.0 / 3.0, 1.0, 2.0, 4.0, 8.0, 16.0}
    ensures r.Some? ==> |r.value| == 4
  {
    if gain == 2.0 / 3.0 then Some([4, 23, -4, 29])
    else if gain == 1.0 then Some([6, 34, -7, 43])
    else if gain == 2.0 then Some([11, 67, -14, 86])
    else if gain == 4.0 then Some([22, 133, -28, 171])
    else if gain == 8.0 then Some([44, 265, -57, 341])
    else if gain == 16.0 then Some([87, 531, -114, 684])
    else None
  }

  /** `biascorrection(value, gain)`: each of the first four channels plus the
      coefficient of its gain row. For a gain without a row the source prints a
      warning and then fails on the unbound coefficient list (None here). */
  function BiasCorrection(values: seq<int>, gain: real): (r: Option<seq<int>>)
    requires |values| >= 4
    ensures r.Some? <==> BiasCoefficients(gain).Some?
    ensures r.Some? ==> |r.value| == 4
    ensures r.Some? ==> forall c :: 0 <= c < 4 ==> r.value[c] == values[c] + BiasCoefficients(gain).value[c]
  {
    match BiasCoefficients(gain)
    case None => None
    case Some(k) => Some([values[0] + k[0], values[1] + k[1], values[2] + k[2], values[3] + k[3]])
  }

  /** The channel values of one cycle. `values` starts as four zeros and a
      channel whose read raises an I/O error keeps its zero: it does not keep the
      value of the previous cycle. */
  method ReadChannels(samples: seq<Option<int>>) returns (values: seq<int>)
    requires |samples| == 4
    ensures |values| == 4
    ensures forall i :: 0 <= i < 4 ==> values[i] == (if samples[i].Some? then samples[i].value else 0)
  {
    values := [0, 0, 0, 0];
    for i := 0 to 4
      invariant |values| == 4
      invariant forall j :: 0 <= j < i ==> values[j] == (if samples[j].Some? then samples[j].value else 0)
      invariant forall j :: i <= j < 4 ==> values[j] == 0
    {
      match samples[i]
      case Some(v) => values := values[i := v];
      case None =>
    }
  }

  /** The channel values `ReadChannels` produces, as a function. */
  function ChannelValues(samples: seq<Option<int>>): (values: seq<int>)
    requires |samples| == 4
    ensures |values| == 4
  {
    seq(4, i requires 0 <= i < 4 => if samples[i].Some? then samples[i].value else 0)
  }

  /** The frame of one cycle: read, correct for bias, combine. None when the
      gain has no coefficient row. */
  function Sense(samples: seq<Option<int>>, gain: real): Option<Frame>
    requires |samples| == 4
  {
    match BiasCorrection(ChannelValues(samples), gain)
    case None => None
    case Some(v) => Some(FrameOf(v))
  }

  /** The bias correction shifts each combination by the same combination of the
      coefficients, independently of the light on the detector. */
  lemma CorrectionShiftsFrame(values: seq<int>, gain: real)
    requires |values| == 4
    requires BiasCoefficients(gain).Some?
    ensures var k := BiasCoefficients(gain).value;
      FrameOf(BiasCorrection(values, gain).value) ==
        Frame(Vertical(values) + Vertical(k), Horizontal(values) + Horizontal(k), Total(values) + Total(k))
  {
  }

  /** Light spread evenly over the four quadrants gives no raw pointing error:
      what remains of vertical and horizontal is the bias row alone. */
  lemma {:induction false} EvenLightLeavesBias(x: int, gain: real)
    requires BiasCoefficients(gain).Some?
    ensures var k := BiasCoefficients(gain).value;
      Sense([Some(x), Some(x), Some(x), Some(x)], gain) ==
        Some(Frame(Vertical(k), Horizontal(k), 4 * x + Total(k)))
  {
    var samples := [Some(x), Some(x), Some(x), Some(x)];
    assert ChannelValues(samples) == [x, x, x, x];
    CorrectionShiftsFrame([x, x, x, x], gain);
  }

  /** Four channels of 4000 at gain 1: vertical -78, horizontal -22, total 16076. */
  lemma EvenLightAtGainOne()
    ensures Sense([Some(4000), Some(4000), Some(4000), Some(4000)], 1.0) == Some(Frame(-78, -22, 16076))
  {
    EvenLightLeavesBias(4000, 1.0);
  }

  /** At the configured gain 2, evenly lit quadrants read vertical -156 and
      horizontal -44: the vertical bias alone exceeds the tracking tolerance of 100. */
  lemma EvenLightAtGainTwo(x: int)
    ensures Sense([Some(x), Some(x), Some(x), Some(x)], 2.0) == Some(Frame(-156, -44, 4 * x + 150))
  {
    EvenLightLeavesBias(x, 2.0);
  }

  /** When every read fails, the frame is the bias row alone (total 150 at gain 2). */
  lemma AllReadsFailed(gain: real)
    requires BiasCoefficients(gain).Some?
    ensures var k := BiasCoefficients(gain).value;
      Sense([None, None, None, None], gain) == Some(FrameOf(k))
  {
    var samples: seq<Option<int>> := [None, None, None, None];
    assert ChannelValues(samples) == [0, 0, 0, 0];
    CorrectionShiftsFrame([0, 0, 0, 0], gain);
  }
}
