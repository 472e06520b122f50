/** The shared signal-processing state of the engine: oscillator settings,
    the two LFOs, the modulation matrix and the state-variable low-pass
    filter. The transcendental parts (sine, `powf`, `asin`, the LFO phase
    wrap and the oscillator sample formulas) are not modelled; they come from
    a `Kernel` of function values that every operation needing them takes. */
module Dsp {
  import opened Numeric
  import opened Waveforms

  /** `OscSettings`. */
  datatype OscSettings = OscSettings(waveform: Waveform, detuneCents: real, gain: real)

  /** `OscSettings::default()`. */
  const DefaultOsc := OscSettings(Saw, 0.0, 0.8)

  /** One oscillator's step inside `Voice::render`: its new phase and its sample. */
  datatype OscStep = OscStep(phase: real, sample: real)

  /** `LFO`; `waveform` selects the shape: 0 sine, 1 `(2/π)·asin(phase)`
      (labelled triangle in the source), 2 square, 3 saw, anything else
      sine. Nothing writes `waveform` after `LFO::default()` sets it to 0. */
  datatype Lfo = Lfo(rate: real, amount: real, phase: real, waveform: Byte)
  {
    /** `LFO::retrigger`: restart the cycle, keeping rate, amount and shape. */
    function Retrigger(): (l: Lfo)
      ensures l.phase == 0.0
      ensures l.rate == rate && l.amount == amount && l.waveform == waveform
    {
      this.(phase := 0.0)
    }

    /** `LFO::tick`: only the phase moves; its new value is the kernel's. */
    function Tick(k: Kernel, dt: real): (l: Lfo)
      ensures l.rate == rate && l.amount == amount && l.waveform == waveform
    {
      this.(phase := k.lfoPhase(this, dt))
    }

    /** `LFO::value`: the kernel's shape at the current phase, scaled by
        `amount`. When the shape lies within [-1,1] the value lies within
        [-amount, amount]. The sine, square and saw shapes do; shape 1 takes
        `asin` of a phase in [0, 2π), which is undefined above 1, but no
        operation selects that shape. */
    function Value(k: Kernel): (v: real)
      ensures amount == 0.0 ==> v == 0.0
      ensures amount >= 0.0 && -1.0 <= k.lfoShape(this) <= 1.0 ==> -amount <= v <= amount
    {
      ScaledWithin(k.lfoShape(this), amount);
      k.lfoShape(this) * amount
    }
  }

  /** `LFO::default()`. */
  const DefaultLfo := Lfo(2.5, 0.0, 0.0, 0)

  /** A value in [-1,1] scaled by a non-negative factor stays within that factor. */
  lemma ScaledWithin(s: real, a: real)
    ensures a >= 0.0 && -1.0 <= s <= 1.0 ==> -a <= s * a <= a
  {
    if a >= 0.0 && -1.0 <= s <= 1.0 {
      assert (1.0 - s) * a >= 0.0 && (s + 1.0) * a >= 0.0;
    }
  }

  /** An LFO whose amount is zero contributes nothing to any route, whatever
      its shape and phase; both LFOs start that way. */
  lemma SilentLfo(l: Lfo, k: Kernel)
    requires l.amount == 0.0
    ensures l.Value(k) == 0.0
  {
  }

  /** `ModMatrix`: depth of each LFO/envelope route. */
  datatype ModMatrix = ModMatrix(
    lfo0ToCutoff: real, lfo1ToCutoff: real, envToCutoff: real,
    lfo0ToAmp: real, lfo1ToAmp: real,
    lfo0ToWtpos: real, lfo1ToWtpos: real)
  {
    /** The route a `mod_*` parameter name addresses, as a reference table. */
    function Get(name: string): real
      requires name in ModNames
    {
      if name == "mod_lfo0_to_cutoff" then lfo0ToCutoff
      else if name == "mod_lfo1_to_cutoff" then lfo1ToCutoff
      else if name == "mod_env_to_cutoff" then envToCutoff
      else if name == "mod_lfo0_to_amp" then lfo0ToAmp
      else if name == "mod_lfo1_to_amp" then lfo1ToAmp
      else if name == "mod_lfo0_to_wtpos" then lfo0ToWtpos
      else lfo1ToWtpos
    }

    /** `ModMatrix::set_by_name`: the named route takes the value, every
        other route keeps its depth, and an unknown name changes nothing. */
    function SetByName(name: string, value: real): (m: ModMatrix)
      ensures name in ModNames ==> m.Get(name) == value
      ensures forall n | n in ModNames && n != name :: m.Get(n) == Get(n)
      ensures name !in ModNames ==> m == this
    {
      if name == "mod_lfo0_to_cutoff" then this.(lfo0ToCutoff := value)
      else if name == "mod_lfo1_to_cutoff" then this.(lfo1ToCutoff := value)
      else if name == "mod_env_to_cutoff" then this.(envToCutoff := value)
      else if name == "mod_lfo0_to_amp" then this.(lfo0ToAmp := value)
      else if name == "mod_lfo1_to_amp" then this.(lfo1ToAmp := value)
      else if name == "mod_lfo0_to_wtpos" then this.(lfo0ToWtpos := value)
      else if name == "mod_lfo1_to_wtpos" then this.(lfo1ToWtpos := value)
      else this
    }
  }

  /** The route names `ModMatrix::set_by_name` recognises. */
  const ModNames: set<string> := {
    "mod_lfo0_to_cutoff", "mod_lfo1_to_cutoff", "mod_env_to_cutoff",
    "mod_lfo0_to_amp", "mod_lfo1_to_amp", "mod_lfo0_to_wtpos", "mod_lfo1_to_wtpos"}

  /** `ModMatrix::default()`. */
  const DefaultMods := ModMatrix(0.3, 0.0, 0.0, 0.0, 0.0, 0.0, 0.0)

  /** The name table covers every route: two matrices that agree on every
      name are equal, so `SetByName`'s contract determines its result. */
  lemma GetDeterminesMatrix(a: ModMatrix, b: ModMatrix)
    requires forall n | n in ModNames :: a.Get(n) == b.Get(n)
    ensures a == b
  {
    assert a.Get("mod_lfo0_to_cutoff") == b.Get("mod_lfo0_to_cutoff");
    assert a.Get("mod_lfo1_to_cutoff") == b.Get("mod_lfo1_to_cutoff");
    assert a.Get("mod_env_to_cutoff") == b.Get("mod_env_to_cutoff");
    assert a.Get("mod_lfo0_to_amp") == b.Get("mod_lfo0_to_amp");
    assert a.Get("mod_lfo1_to_amp") == b.Get("mod_lfo1_to_amp");
    assert a.Get("mod_lfo0_to_wtpos") == b.Get("mod_lfo0_to_wtpos");
    assert a.Get("mod_lfo1_to_wtpos") == b.Get("mod_lfo1_to_wtpos");
  }

  /** `StateVarFilter`: cutoff, resonance and the three integrator states. */
  datatype StateVarFilter = StateVarFilter(
    baseCutoff: real, resonance: real, sampleRate: real,
    low: real, high: real, band: real)
  {
    /** `StateVarFilter::set_cutoff`. */
    function SetCutoff(c: real): (f: StateVarFilter)
      ensures f.baseCutoff == c
      ensures f == this.(baseCutoff := c)
    {
      this.(baseCutoff := c)
    }

    /** The integrator gain `f`, clamped to [0,1]. */
    function Coefficient(k: Kernel): (g: real)
      requires sampleRate != 0.0
      ensures 0.0 <= g <= 1.0
    {
      Clamp(2.0 * k.unitSine(baseCutoff / (2.0 * sampleRate)), 0.0, 1.0)
    }

    /** `StateVarFilter::process`: one sample of input `x`; the output is
        the new `low`. Cutoff, resonance and rate are left as they were. */
    function Process(k: Kernel, x: real): (f: StateVarFilter)
      requires sampleRate != 0.0
      ensures f.baseCutoff == baseCutoff && f.resonance == resonance && f.sampleRate == sampleRate
      ensures f.low == low + Coefficient(k) * band
      ensures f.high == x - f.low - resonance * band
      ensures f.band == band + Coefficient(k) * f.high
    {
      var g := Coefficient(k);
      var low' := low + g * band;
      var high' := x - low' - resonance * band;
      StateVarFilter(baseCutoff, resonance, sampleRate, low', high', band + g * high')
    }

    predicate AtRest() { low == 0.0 && high == 0.0 && band == 0.0 }
  }

  /** A filter at rest fed silence stays at rest and outputs silence. */
  lemma FilterSilenceInSilenceOut(f: StateVarFilter, k: Kernel)
    requires f.sampleRate != 0.0 && f.AtRest()
    ensures f.Process(k, 0.0).AtRest() && f.Process(k, 0.0).low == 0.0
  {
  }

  /** The functions of the engine that are not modelled, given as values:
      `midiToFreq` is `midi_to_freq` (`powf`); `unitSine(x)` is sin(2πx);
      `lfoPhase` is the phase `LFO::tick` computes (a float `%` by 2π);
      `lfoShape` is the waveform part of `LFO::value` before scaling by
      `amount`; `oscillator(settings, table, freq, phase, wtposMod, rate)` is
      one pass of the oscillator loop of `Voice::render` (detune, phase
      advance and wrap, and the waveform formula, including the random
      sample of the Noise waveform). */
  datatype Kernel = Kernel(
    midiToFreq: Byte -> real,
    unitSine: real -> real,
    lfoPhase: (Lfo, real) -> real,
    lfoShape: Lfo -> real,
    oscillator: (OscSettings, seq<real>, real, real, real, real) -> OscStep)
}
