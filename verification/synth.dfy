/** `Synthesizer`, the engine object: the voice pool with its note-on and
    note-off bookkeeping, the named-parameter interface, the two wavetables,
    preset import and the per-sample render loop that mixes the voices,
    retires the finished ones and runs the filter, delay and reverb. */
module Synth {
  import opened Numeric
  import opened Waveforms
  import opened Envelope
  import opened Dsp
  import opened Subsequences
  import opened Voices
  import opened Parameters
  import opened Effects
  import opened Wavetables

  /** `MAX_VOICES`: the pool never holds more voices than this. */
  const MaxVoices: nat := 64

  datatype Option<T> = None | Some(value: T)

  /** What `import_preset` reads from a parsed value that passes the
      `Object` test (a JSON object or a JSON array): its numeric members by
      key, and the entries of its `wavetables` member as `Array::from` lists
      them, each a `Float32Array` or `None` for an entry of any other kind.
      `tables` is `None` when there is no `wavetables` member or it is
      `null`, which is one case where `Array::from` throws; a JSON array is
      a value with no keys and no `wavetables` member. */
  datatype Preset = Preset(numbers: map<string, real>, tables: Option<seq<Option<seq<real>>>>)

  /** How `import_preset` ends: `false` for text that fails to parse or
      parses to `null`, a number, a string or a boolean; `true` after a
      complete import; or a thrown exception from `Array::from` once the
      numeric keys have been applied. */
  datatype ImportOutcome = Refused | Imported | Threw

  /** The pool after admitting `v`: when it is full the oldest voice (index
      0) is stolen, and the new voice goes last. */
  function Admit(vs: seq<Voice>, v: Voice): (r: seq<Voice>)
    ensures r != [] && r[|r| - 1] == v
  {
    (if |vs| >= MaxVoices then vs[1..] else vs) + [v]
  }

  /** Voice stealing is FIFO and bounded: from a pool within the cap the
      result is within the cap, holds one voice more unless the pool was
      full, and what precedes the new voice is the newest voices of the old
      pool in their old order, so only the oldest can be lost. */
  lemma AdmitKeepsNewest(vs: seq<Voice>, v: Voice)
    requires |vs| <= MaxVoices
    ensures var r := Admit(vs, v);
      && |r| <= MaxVoices
      && (|vs| < MaxVoices ==> |r| == |vs| + 1)
      && (|vs| == MaxVoices ==> |r| == MaxVoices)
      && r[..|r| - 1] == vs[|vs| + 1 - |r|..]
  {
  }

  /** A voice after `note_off(note)`: released if it plays `note`. Only
      the envelope's stage can change, and the level does not jump. */
  function ReleaseIfNote(v: Voice, note: Byte): (r: Voice)
    ensures r.midiNote == v.midiNote && r.freq == v.freq && r.vel == v.vel
    ensures r.phase0 == v.phase0 && r.phase1 == v.phase1 && r.alive == v.alive
    ensures r.env.state == (if v.midiNote == note then Release else v.env.state)
    ensures r.env.level == v.env.level
  {
    if v.midiNote == note then v.(env := v.env.NoteOff()) else v
  }

  /** `note_off` releases exactly the voices playing the note: the pool keeps
      its length and order, each matching voice enters Release at its current
      level, and every other voice is unchanged. */
  lemma ReleaseIfNoteSpec(v: Voice, note: Byte)
    ensures var r := ReleaseIfNote(v, note);
      && r.midiNote == v.midiNote && r.freq == v.freq && r.vel == v.vel
      && (v.midiNote == note ==> r.env.state == Release && r.env.level == v.env.level)
      && (v.midiNote != note ==> r == v)
      && (v.env.Wf() ==> r.env.Wf())
      && (!v.IsFinished() ==> !r.IsFinished())
  {
  }

  /** The default table: one cycle of a sine over 2048 samples. */
  function SineTable(k: Kernel): (t: seq<real>)
    ensures |t| == WavetableSize
  {
    seq(WavetableSize, i requires 0 <= i < WavetableSize => k.unitSine(i as real / WavetableSize as real))
  }

  /** The loop of `Synthesizer::new` that fills the default sine table. */
  method FillSineTable(k: Kernel) returns (t: seq<real>)
    ensures t == SineTable(k)
  {
    var a := new real[WavetableSize];
    for i := 0 to WavetableSize
      invariant forall j | 0 <= j < i :: a[j] == k.unitSine(j as real / WavetableSize as real)
    {
      a[i] := k.unitSine(i as real / WavetableSize as real);
    }
    t := a[..];
  }

  /** The `retain_mut` loop of `render_audio`: every voice is rendered in
      pool order, its sample added to the mix, and it is kept unless its
      envelope reached Idle. Its result is one `RenderPass`. */
  method Retain(vs: seq<Voice>, ctx: RenderContext, k: Kernel) returns (kept: seq<Voice>, mix: real)
    ensures Pass(kept, mix) == RenderPass(vs, ctx, k)
  {
    kept := [];
    mix := 0.0;
    var i := 0;
    while i < |vs|
      invariant 0 <= i <= |vs|
      invariant Pass(kept, mix) == RenderPass(vs[..i], ctx, k)
    {
      assert vs[..i + 1][..i] == vs[..i];
      var r := RenderVoice(vs[i], ctx, k);
      mix := mix + r.sample;
      if !r.voice.IsFinished() {
        kept := kept + [r.voice];
      }
      i := i + 1;
    }
    assert vs[..|vs|] == vs;
  }

  /** A pass over a valid pool leaves a valid pool: within the cap, no
      finished voice, every envelope well formed, the notes kept in order. */
  lemma PassKeepsPoolValid(vs: seq<Voice>, ctx: RenderContext, k: Kernel)
    requires |vs| <= MaxVoices && AllWf(vs) && ctx.dt > 0.0
    ensures var kept := RenderPass(vs, ctx, k).kept;
      |kept| <= MaxVoices && NoneFinished(kept) && AllWf(kept) && IsSubsequence(Notes(kept), Notes(vs))
  {
    RenderPassKeepsWf(vs, ctx, k);
  }

  /** The tick length of a positive sample rate is positive. */
  lemma PositiveStep(sr: real)
    requires sr > 0.0
    ensures 1.0 / sr > 0.0
  {
  }

  /** Sum of the cutoff routes: both LFOs scaled by their depths, plus the
      envelope route's depth as a constant offset. With both LFOs silent (as
      they start) or both LFO routes at 0, only that offset remains. */
  function CutoffMod(l0: Lfo, l1: Lfo, mods: ModMatrix, k: Kernel): (m: real)
    ensures l0.amount == 0.0 && l1.amount == 0.0 ==> m == mods.envToCutoff
    ensures mods.lfo0ToCutoff == 0.0 && mods.lfo1ToCutoff == 0.0 ==> m == mods.envToCutoff
  {
    l0.Value(k) * mods.lfo0ToCutoff + l1.Value(k) * mods.lfo1ToCutoff + mods.envToCutoff
  }

  /** The cutoff `render_audio` sets: the base cutoff moved by 2000 Hz per
      unit of modulation, at least 20 Hz and at most 0.49 times the rate. */
  function ModulatedCutoff(base: real, lfoMod: real, sr: real): (c: real)
    ensures c <= sr * 0.49
    ensures sr * 0.49 >= 20.0 ==> c >= 20.0
    ensures 20.0 <= base + lfoMod * 2000.0 <= sr * 0.49 ==> c == base + lfoMod * 2000.0
  {
    Min(Max(base + lfoMod * 2000.0, 20.0), sr * 0.49)
  }

  /** The modulated cutoff replaces the base cutoff, so a constant
      modulation accumulates: two frames with modulation `m` move the cutoff
      as far as one frame with `2m`, as long as the limits are not reached. */
  lemma CutoffModulationAccumulates(base: real, m: real, sr: real)
    requires 20.0 <= base + m * 2000.0 <= sr * 0.49
    requires 20.0 <= base + 2.0 * m * 2000.0 <= sr * 0.49
    ensures ModulatedCutoff(ModulatedCutoff(base, m, sr), m, sr) == ModulatedCutoff(base, 2.0 * m, sr)
  {
  }

  /** The tables after `import_preset` has offered `t` to slot `slot`. */
  function ImportTable(wts: seq<seq<real>>, slot: nat, t: Option<seq<real>>): seq<seq<real>>
    requires slot < |wts|
  {
    if t.Some? && |t.value| > 0 then wts[slot := Resample(t.value)] else wts
  }

  /** The entry `import_preset` reads at index `i` of the `wavetables`
      array (`undefined`, so no `Float32Array`, past its end). */
  function TableEntry(tables: seq<Option<seq<real>>>, i: nat): Option<seq<real>>
  {
    if i < |tables| then tables[i] else None
  }

  /** The dry/wet output of the delay followed by the reverb for input
      `x`, given the delayed sample and the comb sample they read. */
  function ChainOut(x: real, delayed: real, delayWet: real, comb: real, reverbWet: real): real
  {
    var d := Mix(x, delayed, delayWet);
    Mix(d, d + comb * CombFeedback, reverbWet)
  }

  /** A frame's output sample: the reverb output times the master gain,
      clamped to [-1,1]; a product already in range passes unchanged. */
  function OutputSample(reverbed: real, gain: real): (y: real)
    ensures -1.0 <= y <= 1.0
    ensures -1.0 <= reverbed * gain <= 1.0 ==> y == reverbed * gain
    ensures gain == 0.0 ==> y == 0.0
  {
    Clamp(reverbed * gain, -1.0, 1.0)
  }

  /** The effect chain of a frame: the filtered sample through the delay,
      the delay's output through the reverb. */
  method RunEffects(delay: SimpleDelay, reverb: SimpleReverb, x: real) returns (y: real)
    requires delay.Valid() && reverb.Valid() && delay.buffer != reverb.combBuf
    modifies delay, delay.buffer, reverb, reverb.combBuf
    ensures delay.Valid() && reverb.Valid()
    ensures y == ChainOut(x, old(delay.buffer[delay.ReadIndex()]), delay.wet, old(reverb.combBuf[reverb.combPos]), reverb.wet)
    ensures delay.buffer[..] == old(delay.buffer[..])[old(delay.writePos) := Feedback(x, old(delay.buffer[delay.ReadIndex()]), delay.feedback)]
    ensures delay.writePos == (old(delay.writePos) + 1) % delay.length
    ensures reverb.combBuf[..] == old(reverb.combBuf[..])[old(reverb.combPos) :=
      Mix(x, old(delay.buffer[delay.ReadIndex()]), delay.wet) + old(reverb.combBuf[reverb.combPos]) * CombFeedback]
    ensures reverb.combPos == (old(reverb.combPos) + 1) % reverb.combLen
    ensures delay.timeSeconds == old(delay.timeSeconds) && delay.feedback == old(delay.feedback)
    ensures delay.wet == old(delay.wet) && reverb.wet == old(reverb.wet)
  {
    var delayed := delay.Process(x);
    ghost var delayBuf := delay.buffer[..];
    y := reverb.Process(delayed);
    assert delay.buffer[..] == delayBuf;
  }

  /** The engine state outside the parameter table: pool, tables, LFO
      phases and shapes, filter integrators and rate, effect positions. */
  datatype RuntimeState = RuntimeState(
    voices: seq<Voice>, wavetables: seq<seq<real>>,
    lfoPhases: seq<real>, lfoShapes: seq<Byte>,
    filterState: seq<real>, filterRate: real,
    delayPos: nat, combPos: nat)

  /** The `set_parameter` arms that write an oscillator's settings. */
  predicate OscId(id: ParamId)
  {
    id.Osc0Waveform? || id.Osc1Waveform? || id.Osc0Gain? || id.Osc1Gain?
      || id.Osc0Detune? || id.Osc1Detune? || id.OscSync?
  }

  /** The arms that write the envelope defaults or the filter. */
  predicate EnvFilterId(id: ParamId)
  {
    id.EnvAttack? || id.EnvDecay? || id.EnvSustain? || id.EnvRelease?
      || id.FilterCutoff? || id.FilterResonance? || id.FilterEnv?
  }

  /** The arms that write an LFO setting. */
  predicate LfoId(id: ParamId)
  {
    id.Lfo0Rate? || id.Lfo0Amount? || id.Lfo1Rate? || id.Lfo1Amount? || id.Lfo0Retrigger?
  }

  /** The arms that write the delay or the reverb. */
  predicate FxId(id: ParamId)
  {
    id.DelayTime? || id.DelayFeedback? || id.DelayWet? || id.ReverbWet?
  }

  class Synthesizer {
    const sampleRate: real
    var oscSettings: seq<OscSettings>
    var wavetables: seq<seq<real>>
    var voices: seq<Voice>
    var envDefaults: AdsrParams
    var filter: StateVarFilter
    var lfos: seq<Lfo>
    var modMatrix: ModMatrix
    const delay: SimpleDelay
    const reverb: SimpleReverb
    var masterGain: real
    var filterEnvEnabled: bool
    var lfo0Retrigger: bool

    /** The engine's invariant: two oscillators, two LFOs and two full-size
        tables; a pool within the cap holding no finished voice and only
        well-formed envelopes; envelope defaults in their domain; a filter
        at the engine's rate; and two valid, separate effect buffers. */
    ghost predicate Valid()
      reads this, delay, reverb
    {
      && sampleRate > 0.0
      && |oscSettings| == 2 && |lfos| == 2
      && |wavetables| == 2 && |wavetables[0]| == WavetableSize && |wavetables[1]| == WavetableSize
      && |voices| <= MaxVoices && NoneFinished(voices) && AllWf(voices)
      && envDefaults.InDomain()
      && filter.sampleRate == sampleRate
      && delay.Valid() && reverb.Valid() && delay.buffer != reverb.combBuf
    }

    /** Every field a parameter name or preset key can write. */
    ghost function Settings(): Params
      reads this, delay, reverb
      requires |oscSettings| == 2 && |lfos| == 2
    {
      Params(oscSettings[0], oscSettings[1], envDefaults,
        filter.baseCutoff, filter.resonance, filterEnvEnabled,
        lfos[0].rate, lfos[0].amount, lfos[1].rate, lfos[1].amount, lfo0Retrigger,
        delay.timeSeconds, delay.feedback, delay.wet, reverb.wet,
        masterGain, modMatrix)
    }

    /** `Synthesizer::new`: default settings, two sine tables, an empty pool. */
    constructor (sr: real, k: Kernel)
      requires sr > 0.0
      ensures Valid() && fresh(delay) && fresh(reverb) && fresh(delay.buffer) && fresh(reverb.combBuf)
      ensures sampleRate == sr && voices == []
      ensures oscSettings == [DefaultOsc, DefaultOsc] && wavetables == [SineTable(k), SineTable(k)]
      ensures envDefaults == DefaultParams && lfos == [DefaultLfo, DefaultLfo] && modMatrix == DefaultMods
      ensures filter == StateVarFilter(1200.0, 0.6, sr, 0.0, 0.0, 0.0)
      ensures delay.sampleRate == sr && delay.timeSeconds == 0.3 && delay.feedback == 0.35 && delay.wet == 0.35
      ensures delay.length == AtLeastOne(ToUsize(sr * MaxDelaySeconds)) && delay.writePos == 0
      ensures forall i | 0 <= i < delay.buffer.Length :: delay.buffer[i] == 0.0
      ensures reverb.combLen == AtLeastOne(ToUsize(sr * CombSeconds)) && reverb.combPos == 0 && reverb.wet == 0.25
      ensures forall i | 0 <= i < reverb.combBuf.Length :: reverb.combBuf[i] == 0.0
      ensures masterGain == 0.9 && filterEnvEnabled && !lfo0Retrigger
      ensures InDomain(Settings())
    {
      var table := FillSineTable(k);
      sampleRate := sr;
      oscSettings := [DefaultOsc, DefaultOsc];
      wavetables := [table, table];
      voices := [];
      envDefaults := DefaultParams;
      filter := StateVarFilter(1200.0, 0.6, sr, 0.0, 0.0, 0.0);
      lfos := [DefaultLfo, DefaultLfo];
      modMatrix := DefaultMods;
      delay := new SimpleDelay(sr, 0.3, 0.35);
      reverb := new SimpleReverb(sr);
      masterGain := 0.9;
      filterEnvEnabled := true;
      lfo0Retrigger := false;
    }

    /** `Synthesizer::note_on`: steal the oldest voice if the pool is full,
        start a voice at the note's frequency with the given start phases,
        retrigger the first LFO if that is switched on, and append the voice. */
    method NoteOn(midiNote: Byte, velocity: real, k: Kernel, phase0: real, phase1: real)
      requires Valid()
      modifies this
      ensures Valid()
      ensures voices == Admit(old(voices),
        NewVoice(midiNote, k.midiToFreq(midiNote), velocity, envDefaults).(phase0 := phase0, phase1 := phase1))
      ensures lfos == if lfo0Retrigger then old(lfos)[0 := old(lfos)[0].Retrigger()] else old(lfos)
      ensures oscSettings == old(oscSettings) && wavetables == old(wavetables)
      ensures envDefaults == old(envDefaults) && filter == old(filter) && modMatrix == old(modMatrix)
      ensures masterGain == old(masterGain) && filterEnvEnabled == old(filterEnvEnabled)
      ensures lfo0Retrigger == old(lfo0Retrigger)
    {
      var freq := k.midiToFreq(midiNote);
      if |voices| >= MaxVoices {
        voices := voices[1..];
      }
      var v := NewVoice(midiNote, freq, velocity, envDefaults);
      v := v.(phase0 := phase0, phase1 := phase1);
      if lfo0Retrigger {
        lfos := lfos[0 := lfos[0].Retrigger()];
      }
      voices := voices + [v];
      AdmitKeepsNewest(old(voices), v);
    }

    /** `Synthesizer::note_off`: release every voice playing the note. */
    method NoteOff(note: Byte)
      requires Valid()
      modifies this
      ensures Valid()
      ensures |voices| == |old(voices)|
      ensures forall i | 0 <= i < |voices| :: voices[i] == ReleaseIfNote(old(voices)[i], note)
      ensures oscSettings == old(oscSettings) && wavetables == old(wavetables) && lfos == old(lfos)
      ensures envDefaults == old(envDefaults) && filter == old(filter) && modMatrix == old(modMatrix)
      ensures masterGain == old(masterGain) && filterEnvEnabled == old(filterEnvEnabled)
      ensures lfo0Retrigger == old(lfo0Retrigger)
    {
      var vs := voices;
      var i := 0;
      while i < |vs|
        invariant 0 <= i <= |vs| && |vs| == |voices|
        invariant forall j | 0 <= j < i :: vs[j] == ReleaseIfNote(voices[j], note)
        invariant forall j | i <= j < |vs| :: vs[j] == voices[j]
      {
        if vs[i].midiNote == note {
          vs := vs[i := vs[i].(env := vs[i].env.NoteOff())];
        }
        i := i + 1;
      }
      forall j | 0 <= j < |vs|
        ensures vs[j].env.Wf() && !vs[j].IsFinished()
      {
        ReleaseIfNoteSpec(voices[j], note);
      }
      voices := vs;
    }

    /** Everything in the engine a parameter name cannot reach: the voice
        pool, the tables, the LFO phases and shapes, the filter's integrator
        state and rate, and the effects' positions. */
    ghost function Runtime(): RuntimeState
      reads this, delay, reverb
      requires |lfos| == 2
    {
      RuntimeState(voices, wavetables, [lfos[0].phase, lfos[1].phase], [lfos[0].waveform, lfos[1].waveform],
        [filter.low, filter.high, filter.band], filter.sampleRate, delay.writePos, reverb.combPos)
    }

    /** `Synthesizer::set_parameter`: the named field takes the value
        through its clamp; an unrecognised name changes nothing. Voices,
        tables, LFO phases, filter state and effect positions are untouched.
        The arms are grouped by the part of the engine they write. */
    method SetParameter(name: string, value: real)
      requires Valid()
      modifies this, delay, reverb
      ensures Valid()
      ensures Settings() == ApplyParameter(old(Settings()), name, value)
      ensures InDomain(old(Settings())) ==> InDomain(Settings())
      ensures Runtime() == old(Runtime())
    {
      var id := ParseName(name);
      ghost var target := Apply(Settings(), id, value);
      assert ApplyParameter(Settings(), name, value) == target;
      if InDomain(Settings()) {
        ApplyKeepsDomain(Settings(), id, value);
      }
      if OscId(id) {
        SetOscParameter(id, value);
      } else if EnvFilterId(id) {
        SetEnvFilterParameter(id, value);
      } else if LfoId(id) {
        SetLfoParameter(id, value);
      } else if FxId(id) {
        SetFxParameter(id, value);
      } else {
        SetOtherParameter(id, value);
      }
    }

    /** The remaining arms of `set_parameter`: the master gain, a `mod_*`
        route, and the names that change nothing. */
    method SetOtherParameter(id: ParamId, value: real)
      requires Valid() && !OscId(id) && !EnvFilterId(id) && !LfoId(id) && !FxId(id)
      modifies this
      ensures Valid()
      ensures Settings() == Apply(old(Settings()), id, value)
      ensures Runtime() == old(Runtime())
    {
      match id {
        case MasterGain => masterGain := value;
        case ModRoute(route) => modMatrix := modMatrix.SetByName(route, value);
        case _ =>
      }
    }

    /** The oscillator arms of `set_parameter`. */
    method SetOscParameter(id: ParamId, value: real)
      requires Valid() && OscId(id)
      modifies this
      ensures Valid()
      ensures Settings() == Apply(old(Settings()), id, value)
      ensures Runtime() == old(Runtime())
    {
      match id {
        case Osc0Waveform => oscSettings := oscSettings[0 := oscSettings[0].(waveform := FromReal(value))];
        case Osc1Waveform => oscSettings := oscSettings[1 := oscSettings[1].(waveform := FromReal(value))];
        case Osc0Gain => oscSettings := oscSettings[0 := oscSettings[0].(gain := value)];
        case Osc1Gain => oscSettings := oscSettings[1 := oscSettings[1].(gain := value)];
        case Osc0Detune => oscSettings := oscSettings[0 := oscSettings[0].(detuneCents := value)];
        case Osc1Detune => oscSettings := oscSettings[1 := oscSettings[1].(detuneCents := value)];
        case OscSync =>
      }
    }

    /** The envelope and filter arms of `set_parameter`. */
    method SetEnvFilterParameter(id: ParamId, value: real)
      requires Valid() && EnvFilterId(id)
      modifies this
      ensures Valid()
      ensures Settings() == Apply(old(Settings()), id, value)
      ensures Runtime() == old(Runtime())
    {
      match id {
        case EnvAttack => envDefaults := envDefaults.(attack := Max(value, 0.0001));
        case EnvDecay => envDefaults := envDefaults.(decay := Max(value, 0.0001));
        case EnvSustain => envDefaults := envDefaults.(sustain := Clamp(value, 0.0, 1.0));
        case EnvRelease => envDefaults := envDefaults.(release := Max(value, 0.0001));
        case FilterCutoff => filter := filter.SetCutoff(Max(value, 20.0));
        case FilterResonance => filter := filter.(resonance := Max(value, 0.0));
        case FilterEnv => filterEnvEnabled := value > 0.5;
      }
    }

    /** The LFO arms of `set_parameter`. */
    method SetLfoParameter(id: ParamId, value: real)
      requires Valid() && LfoId(id)
      modifies this
      ensures Valid()
      ensures Settings() == Apply(old(Settings()), id, value)
      ensures Runtime() == old(Runtime())
    {
      match id {
        case Lfo0Rate => lfos := lfos[0 := lfos[0].(rate := Max(value, 0.0))];
        case Lfo0Amount => lfos := lfos[0 := lfos[0].(amount := value)];
        case Lfo1Rate => lfos := lfos[1 := lfos[1].(rate := Max(value, 0.0))];
        case Lfo1Amount => lfos := lfos[1 := lfos[1].(amount := value)];
        case Lfo0Retrigger => lfo0Retrigger := value > 0.5;
      }
    }

    /** The effect arms of `set_parameter`. */
    method SetFxParameter(id: ParamId, value: real)
      requires Valid() && FxId(id)
      modifies delay, reverb
      ensures Valid()
      ensures Settings() == Apply(old(Settings()), id, value)
      ensures Runtime() == old(Runtime())
    {
      match id {
        case DelayTime => delay.SetTime(Max(value, 0.0));
        case DelayFeedback => delay.feedback := Clamp(value, 0.0, 0.99);
        case DelayWet => delay.wet := Clamp(value, 0.0, 1.0);
        case ReverbWet => reverb.wet := Clamp(value, 0.0, 1.0);
      }
    }

    /** `Synthesizer::set_wavetable`: an input of any non-zero length is
        resampled to 2048 samples and replaces the table of slot 0 or 1; a
        slot of 2 or more, or an empty input, changes nothing. */
    method SetWavetable(slot: nat, arr: seq<real>)
      requires Valid()
      modifies this
      ensures Valid()
      ensures slot >= 2 || arr == [] ==> wavetables == old(wavetables)
      ensures slot < 2 && arr != [] ==> wavetables == old(wavetables)[slot := Resample(arr)]
      ensures oscSettings == old(oscSettings) && voices == old(voices) && lfos == old(lfos)
      ensures envDefaults == old(envDefaults) && filter == old(filter) && modMatrix == old(modMatrix)
      ensures masterGain == old(masterGain) && filterEnvEnabled == old(filterEnvEnabled)
      ensures lfo0Retrigger == old(lfo0Retrigger)
    {
      if slot >= 2 {
        return;
      }
      var len := |arr|;
      if len == 0 {
        return;
      }
      var out := new real[WavetableSize];
      for i := 0 to WavetableSize
        modifies out
        invariant forall j | 0 <= j < i :: out[j] == ResampleAt(arr, j)
      {
        var x := Position(i, len);
        var i0 := x.Floor % len;
        var i1 := (i0 + 1) % len;
        var frac := x - x.Floor as real;
        assert i0 == Lower(i, len) && i1 == Upper(i, len) && frac == Frac(i, len);
        out[i] := arr[i0] * (1.0 - frac) + arr[i1] * frac;
      }
      assert out[..] == Resample(arr);
      wavetables := wavetables[slot := out[..]];
    }

    /** `Synthesizer::get_wavetable`: the table of slot 0 or 1, or 2048
        zeros for any other slot. */
    method GetWavetable(slot: nat) returns (t: seq<real>)
      requires Valid()
      ensures |t| == WavetableSize
      ensures slot < 2 ==> t == wavetables[slot]
      ensures slot >= 2 ==> forall i | 0 <= i < |t| :: t[i] == 0.0
    {
      if slot >= 2 {
        t := seq(WavetableSize, _ => 0.0);
        return;
      }
      t := wavetables[slot];
    }

    /** The numeric keys of `import_preset`, each applied if present. */
    method ImportNumbers(obj: map<string, real>)
      requires Valid()
      modifies this
      ensures Valid()
      ensures Settings() == ApplyPreset(old(Settings()), obj)
      ensures Runtime() == old(Runtime())
      ensures voices == old(voices) && wavetables == old(wavetables)
      ensures filter.low == old(filter.low) && filter.high == old(filter.high) && filter.band == old(filter.band)
      ensures filter.sampleRate == old(filter.sampleRate)
    {
      masterGain := Lookup(obj, "master_gain", masterGain);
      oscSettings := [PresetOsc(oscSettings[0], obj, "osc0_waveform", "osc0_gain", "osc0_detune"),
                      PresetOsc(oscSettings[1], obj, "osc1_waveform", "osc1_gain", "osc1_detune")];
      envDefaults := PresetEnv(envDefaults, obj);
      if "filter_cutoff" in obj {
        filter := filter.SetCutoff(Max(obj["filter_cutoff"], 20.0));
      }
      if "filter_resonance" in obj {
        filter := filter.(resonance := Max(obj["filter_resonance"], 0.0));
      }
    }

    /** `Synthesizer::import_preset`: `None` stands for text that does not
        parse, or parses to `null`, a number, a string or a boolean; it is
        refused. An object or an array passes the `Object` test: every
        numeric key present is applied as `ApplyPreset` says. Then, if it has
        a `wavetables` member, each of its first two entries that is a
        `Float32Array` goes through `set_wavetable` and the import succeeds;
        without one (always the case for an array), `Array::from(undefined)`
        throws and the tables are left as they were. The runtime state other than the tables is never touched. */
    method ImportPreset(preset: Option<Preset>) returns (outcome: ImportOutcome)
      requires Valid()
      modifies this
      ensures Valid()
      ensures outcome == (if preset.None? then Refused else if preset.value.tables.None? then Threw else Imported)
      ensures outcome == Refused ==> Settings() == old(Settings()) && wavetables == old(wavetables)
      ensures outcome != Refused ==> Settings() == ApplyPreset(old(Settings()), preset.value.numbers)
      ensures outcome == Threw ==> wavetables == old(wavetables)
      ensures outcome == Imported ==>
        var tables := preset.value.tables.value;
        wavetables == ImportTable(ImportTable(old(wavetables), 0, TableEntry(tables, 0)), 1, TableEntry(tables, 1))
      ensures InDomain(old(Settings())) ==> InDomain(Settings())
      ensures Runtime() == old(Runtime()).(wavetables := wavetables)
    {
      if preset.None? {
        return Refused;
      }
      var obj := preset.value.numbers;
      ImportNumbers(obj);
      if InDomain(old(Settings())) {
        PresetKeepsDomain(old(Settings()), obj);
      }
      if preset.value.tables.None? {
        return Threw;
      }
      var tables := preset.value.tables.value;
      SetWavetable(0, if 0 < |tables| && tables[0].Some? then tables[0].value else []);
      SetWavetable(1, if 1 < |tables| && tables[1].Some? then tables[1].value else []);
      return Imported;
    }

    /** What `Voice::render` reads from the engine in the current state. */
    function Context(): RenderContext
      reads this
      requires sampleRate > 0.0 && |oscSettings| == 2 && |lfos| == 2 && |wavetables| == 2
    {
      RenderContext(1.0 / sampleRate, oscSettings[0], oscSettings[1], wavetables[0], wavetables[1],
        lfos[0], lfos[1], modMatrix, sampleRate)
    }

    /** The base cutoff lies where `render_audio` leaves it after a frame:
        at most 0.49 times the rate, and at least 20 Hz when the rate
        allows it. */
    predicate CutoffInRange()
      reads this
    {
      && filter.baseCutoff <= sampleRate * 0.49
      && (sampleRate * 0.49 >= 20.0 ==> filter.baseCutoff >= 20.0)
    }

    /** The first half of a frame: tick both LFOs, then render every voice
        into the mix and retire the finished ones. */
    method MixVoices(k: Kernel) returns (mix: real)
      requires Valid()
      modifies this
      ensures Valid()
      ensures lfos == [old(lfos[0]).Tick(k, 1.0 / sampleRate), old(lfos[1]).Tick(k, 1.0 / sampleRate)]
      ensures Pass(voices, mix) == RenderPass(old(voices), Context(), k)
      ensures IsSubsequence(Notes(voices), Notes(old(voices)))
      ensures oscSettings == old(oscSettings) && wavetables == old(wavetables) && modMatrix == old(modMatrix)
      ensures envDefaults == old(envDefaults) && masterGain == old(masterGain) && filter == old(filter)
      ensures filterEnvEnabled == old(filterEnvEnabled) && lfo0Retrigger == old(lfo0Retrigger)
    {
      var dt := 1.0 / sampleRate;
      var ticked := [lfos[0].Tick(k, dt), lfos[1].Tick(k, dt)];
      var ctx := RenderContext(dt, oscSettings[0], oscSettings[1], wavetables[0], wavetables[1],
        ticked[0], ticked[1], modMatrix, sampleRate);
      PositiveStep(sampleRate);
      PassKeepsPoolValid(voices, ctx, k);
      var kept;
      kept, mix := Retain(voices, ctx, k);
      lfos, voices := ticked, kept;
      assert Context() == ctx;
    }

    /** The voice half of a frame: mix the voices, set the cutoff modulated
        by the envelope and LFO routes, and run the mix through the filter;
        the result is the filter's low-pass output. */
    method FilterVoices(k: Kernel) returns (x: real)
      requires Valid()
      modifies this
      ensures Valid()
      ensures lfos == [old(lfos[0]).Tick(k, 1.0 / sampleRate), old(lfos[1]).Tick(k, 1.0 / sampleRate)]
      ensures voices == RenderPass(old(voices), Context(), k).kept
      ensures IsSubsequence(Notes(voices), Notes(old(voices)))
      ensures filter == old(filter)
        .SetCutoff(ModulatedCutoff(old(filter.baseCutoff), CutoffMod(lfos[0], lfos[1], modMatrix, k), sampleRate))
        .Process(k, RenderPass(old(voices), Context(), k).mix)
      ensures x == filter.low
      ensures oscSettings == old(oscSettings) && wavetables == old(wavetables) && modMatrix == old(modMatrix)
      ensures envDefaults == old(envDefaults) && masterGain == old(masterGain)
      ensures filterEnvEnabled == old(filterEnvEnabled) && lfo0Retrigger == old(lfo0Retrigger)
    {
      var mix := MixVoices(k);
      var cutoff := ModulatedCutoff(filter.baseCutoff, CutoffMod(lfos[0], lfos[1], modMatrix, k), sampleRate);
      filter := filter.SetCutoff(cutoff);
      filter := filter.Process(k, mix);
      x := filter.low;
    }

    /** One pass of the frame loop of `render_audio`: tick both LFOs, render
        and retire the voices, set the modulated cutoff, and send the mix
        through filter, delay and reverb; the frame's sample is the reverb
        output times the master gain, clamped to [-1,1]. */
    method RenderFrame(k: Kernel) returns (y: real)
      requires Valid()
      modifies this, delay, delay.buffer, reverb, reverb.combBuf
      ensures Valid()
      ensures -1.0 <= y <= 1.0
      ensures Settings() == old(Settings()).(cutoff := filter.baseCutoff)
      ensures lfos == [old(lfos[0]).Tick(k, 1.0 / sampleRate), old(lfos[1]).Tick(k, 1.0 / sampleRate)]
      ensures voices == RenderPass(old(voices), Context(), k).kept
      ensures IsSubsequence(Notes(voices), Notes(old(voices)))
      ensures filter == old(filter)
        .SetCutoff(ModulatedCutoff(old(filter.baseCutoff), CutoffMod(lfos[0], lfos[1], modMatrix, k), sampleRate))
        .Process(k, RenderPass(old(voices), Context(), k).mix)
      ensures filter.baseCutoff == ModulatedCutoff(old(filter.baseCutoff), CutoffMod(lfos[0], lfos[1], modMatrix, k), sampleRate)
      ensures CutoffInRange()
      ensures y == OutputSample(ChainOut(filter.low, old(delay.buffer[delay.ReadIndex()]), delay.wet,
                                         old(reverb.combBuf[reverb.combPos]), reverb.wet), masterGain)
      ensures delay.buffer[..] == old(delay.buffer[..])[old(delay.writePos) :=
        Feedback(filter.low, old(delay.buffer[delay.ReadIndex()]), delay.feedback)]
      ensures delay.writePos == (old(delay.writePos) + 1) % delay.length
      ensures reverb.combBuf[..] == old(reverb.combBuf[..])[old(reverb.combPos) :=
        Mix(filter.low, old(delay.buffer[delay.ReadIndex()]), delay.wet) + old(reverb.combBuf[reverb.combPos]) * CombFeedback]
      ensures reverb.combPos == (old(reverb.combPos) + 1) % reverb.combLen
      ensures oscSettings == old(oscSettings) && wavetables == old(wavetables) && modMatrix == old(modMatrix)
      ensures envDefaults == old(envDefaults) && masterGain == old(masterGain)
      ensures filterEnvEnabled == old(filterEnvEnabled) && lfo0Retrigger == old(lfo0Retrigger)
      ensures delay.timeSeconds == old(delay.timeSeconds) && delay.feedback == old(delay.feedback)
      ensures delay.wet == old(delay.wet) && reverb.wet == old(reverb.wet)
    {
      var x := FilterVoices(k);
      var reverbed := RunEffects(delay, reverb, x);
      y := OutputSample(reverbed, masterGain);
    }

    /** `Synthesizer::render_audio`: `frames` samples, each in [-1,1]. The
        pool afterwards holds no finished voice and is what remains of the
        old pool, in order. Every setting keeps its value except the base
        cutoff, which each frame overwrites with its modulated cutoff, so
        after a frame it lies within that cutoff's limits. */
    method RenderAudio(frames: nat, k: Kernel) returns (out: seq<real>)
      requires Valid()
      modifies this, delay, delay.buffer, reverb, reverb.combBuf
      ensures Valid()
      ensures |out| == frames
      ensures forall i | 0 <= i < |out| :: -1.0 <= out[i] <= 1.0
      ensures forall i | 0 <= i < |voices| :: !voices[i].IsFinished()
      ensures IsSubsequence(Notes(voices), Notes(old(voices)))
      ensures frames == 0 ==> voices == old(voices) && lfos == old(lfos) && filter == old(filter)
      ensures Settings() == old(Settings()).(cutoff := filter.baseCutoff)
      ensures frames > 0 ==> CutoffInRange()
      ensures oscSettings == old(oscSettings) && wavetables == old(wavetables) && modMatrix == old(modMatrix)
      ensures envDefaults == old(envDefaults) && masterGain == old(masterGain)
      ensures filterEnvEnabled == old(filterEnvEnabled) && lfo0Retrigger == old(lfo0Retrigger)
      ensures delay.timeSeconds == old(delay.timeSeconds) && delay.feedback == old(delay.feedback)
      ensures delay.wet == old(delay.wet) && reverb.wet == old(reverb.wet)
    {
      out := [];
      Reflexive(Notes(voices));
      for n := 0 to frames
        invariant Valid()
        invariant |out| == n
        invariant forall i | 0 <= i < n :: -1.0 <= out[i] <= 1.0
        invariant IsSubsequence(Notes(voices), Notes(old(voices)))
        invariant n == 0 ==> voices == old(voices) && lfos == old(lfos) && filter == old(filter)
        invariant n > 0 ==> CutoffInRange()
        invariant oscSettings == old(oscSettings) && wavetables == old(wavetables) && modMatrix == old(modMatrix)
        invariant envDefaults == old(envDefaults) && masterGain == old(masterGain)
        invariant filterEnvEnabled == old(filterEnvEnabled) && lfo0Retrigger == old(lfo0Retrigger)
        invariant delay.timeSeconds == old(delay.timeSeconds) && delay.feedback == old(delay.feedback)
        invariant delay.wet == old(delay.wet) && reverb.wet == old(reverb.wet)
        invariant filter.resonance == old(filter.resonance)
        invariant lfos[0].rate == old(lfos[0].rate) && lfos[0].amount == old(lfos[0].amount)
        invariant lfos[1].rate == old(lfos[1].rate) && lfos[1].amount == old(lfos[1].amount)
      {
        ghost var before := Notes(voices);
        var y := RenderFrame(k);
        Transitive(Notes(voices), before, Notes(old(voices)));
        out := out + [y];
      }
    }
  }
}
