/** The oscillator waveform selector and its numeric codec: `Waveform::from_f32`
    decodes a parameter value by rounding it, `Waveform::to_index` encodes a
    waveform as its position in the enumeration. */
module Waveforms {

  datatype Waveform = Sine | Saw | Square | Triangle | Noise | Wavetable

  /** `f32::round`: to the nearest integer, halves away from zero. */
  function Round(v: real): (n: int)
    ensures v - 0.5 <= n as real <= v + 0.5
    ensures v >= 0.0 ==> v - 0.5 < n as real
    ensures v < 0.0 ==> n as real < v + 0.5
  {
    if v >= 0.0 then (v + 0.5).Floor else -((-v + 0.5).Floor)
  }

  /** `Waveform::to_index`. */
  function ToIndex(w: Waveform): (i: nat)
    ensures i < 6
  {
    match w
    case Sine => 0
    case Saw => 1
    case Square => 2
    case Triangle => 3
    case Noise => 4
    case Wavetable => 5
  }

  /** `Waveform::from_f32`. The `as i32` cast saturates, which only moves
      values that are already outside 0..5, so it is not spelled out. */
  function FromReal(v: real): (w: Waveform)
    ensures 0 <= Round(v) < 6 ==> ToIndex(w) == Round(v)
    ensures !(0 <= Round(v) < 6) ==> w == Sine
  {
    match Round(v)
    case 0 => Sine
    case 1 => Saw
    case 2 => Square
    case 3 => Triangle
    case 4 => Noise
    case 5 => Wavetable
    case _ => Sine
  }

  /** Rounding an integer-valued number gives that integer back. */
  lemma RoundOfInteger(n: int)
    ensures Round(n as real) == n
  {
    if n >= 0 {
      assert (n as real + 0.5).Floor == n;
    } else {
      assert (-(n as real) + 0.5).Floor == -n;
    }
  }

  /** Decoding the index of a waveform gives back that waveform. */
  lemma RoundTrip(w: Waveform)
    ensures FromReal(ToIndex(w) as real) == w
  {
    RoundOfInteger(ToIndex(w));
  }

  /** Two waveforms with the same index are equal: the encoding is injective. */
  lemma ToIndexInjective(a: Waveform, b: Waveform)
    requires ToIndex(a) == ToIndex(b)
    ensures a == b
  {
    RoundTrip(a);
    RoundTrip(b);
  }

  /** Every value strictly within half a step of a waveform's index decodes
      to that waveform, so a slider value a little off an integer still
      selects the intended waveform. */
  lemma DecodeNear(v: real, w: Waveform)
    requires ToIndex(w) as real - 0.5 < v < ToIndex(w) as real + 0.5
    ensures FromReal(v) == w
  {
    var i := ToIndex(w);
    assert Round(v) == i;
    ToIndexInjective(FromReal(v), w);
  }
}
