# Polyphonic wavetable synthesiser engine — Dafny model

This project models the control and bookkeeping core of a WebAssembly
software synthesiser (`src/lib.rs`). A `Synthesizer` object does the
following:

- It owns a pool of at most 64 voices. `note_on` appends a voice and steals
  the oldest one when the pool is full. `note_off` moves every voice playing
  a note into its release stage.
- It gives each voice its own ADSR envelope, a state machine over Idle,
  Attack, Decay, Sustain and Release.
- It exposes a closed table of named parameters with per-name clamps, plus a
  modulation matrix addressed by `mod_*` names.
- It keeps two 2048-sample wavetables. Any non-empty input is resampled into
  a table by linear interpolation.
- It renders audio frame by frame. Each frame ticks the two LFOs, mixes every
  voice, retires the voices whose envelope went Idle, and modulates the filter
  cutoff. The mix then goes through a state-variable low-pass filter, a
  feedback delay line and a comb reverb. The result is scaled by the master
  gain and clamped to [-1,1].

Samples, levels and settings are `real`. The functions the engine gets from
floating-point maths or from the host are supplied as values of a `Kernel`
datatype. These are sine, `powf`, the LFO phase wrap and shapes, the
oscillator waveform formulas and the noise source. The random start phases
of a voice are parameters of `NoteOn`. The model does not commit to any
particular value for them.

The modules follow the structure of the source:

| file | module | models |
|---|---|---|
| `numeric.dfy` | `Numeric` | `f32::max/min/clamp`, the saturating `as usize`, MIDI note bytes |
| `waveform.dfy` | `Waveforms` | `Waveform`, `from_f32`, `to_index` |
| `envelope.dfy` | `Envelope` | `ADSRParams`, `PerVoiceADSR` |
| `dsp.dfy` | `Dsp` | `OscSettings`, `LFO`, `ModMatrix`, `StateVarFilter`, the kernel |
| `voice.dfy` | `Voices` | `Voice`, `Voice::render`, one `retain_mut` pass over the pool |
| `subsequence.dfy` | `Subsequences` | order-preserving sub-sequences, for voice retirement |
| `parameters.dfy` | `Parameters` | the `set_parameter` name table and the numeric keys of `import_preset` |
| `effects.dfy` | `Effects` | `SimpleDelay`, `SimpleReverb` as classes over circular `array<real>` buffers |
| `wavetable.dfy` | `Wavetables` | the resampling arithmetic of `set_wavetable` |
| `synth.dfy` | `Synth` | the `Synthesizer` class and its methods |

Most of the engine's state has value semantics in the source. `Voice`,
`PerVoiceADSR`, `LFO`, `ModMatrix`, `StateVarFilter` and the settings structs
are plain values owned by the engine. They are datatypes here, and each
`&mut self` update becomes a record update that the `Synthesizer` methods
store back into their fields. The delay and the reverb own buffers that are
updated in place. They are classes with `array<real>` buffers and methods
that modify exactly one slot per sample.

`render_audio` stores the modulated cutoff back into `base_cutoff` through
`set_cutoff`. The next frame therefore starts from the modulated value, and a
constant modulation accumulates from frame to frame until it reaches one of
the limits, 20 Hz or 0.49 times the sample rate. The model keeps this
behaviour, and `Synth.CutoffModulationAccumulates` states it.

A few behaviours of the code are easy to misread, and the model keeps each
of them:

- Cutoff modulation is additive: 2000 Hz per unit of modulation, clamped to
  [20, 0.49 × sample rate].
- The engine runs the delay and reverb itself, sample by sample.
- Preset import is not all-or-nothing. It applies each numeric key it finds
  through the same clamp as `set_parameter`. An object without a
  `wavetables` member makes `Array::from` throw after those keys have been
  applied. `export_preset` writes keys that import never reads.
- Resonance is only kept at or above 0; it has no upper bound.

## Model

| member | source | states |
|---|---|---|
| Numeric.Clamp | src/lib.rs:97 | `x.clamp(lo, hi)` lies in [lo,hi], returns `x` when it is already in range, and returns the violated bound otherwise |
| Numeric.Max | src/lib.rs:95 | `a.max(b)` is at least both arguments and is one of them |
| Numeric.Min | src/lib.rs:258 | `a.min(b)` is at most both arguments and is one of them |
| Numeric.ToUsize | src/lib.rs:614 | `x as usize` truncates a non-negative value to the integer below it, gives 0 for non-positive input, and never exceeds the wasm32 maximum |
| Waveforms.Round | src/lib.rs:284 | `f32::round` lands within half a step of its input, rounding halves away from zero |
| Waveforms.ToIndex | src/lib.rs:294-303 | every waveform's index is below 6 |
| Waveforms.FromReal | src/lib.rs:283-293 | a value whose rounding is an index 0..5 decodes to the waveform with that index; any other value decodes to Sine |
| Waveforms.RoundTrip | src/lib.rs:283-303 | `from_f32(to_index(w) as f32) == w` for every waveform |
| Waveforms.ToIndexInjective | src/lib.rs:294-303 | two waveforms with the same index are the same waveform |
| Waveforms.DecodeNear | src/lib.rs:283-293 | every value strictly within 0.5 of a waveform's index decodes to that waveform |
| Envelope.NewEnvelope | src/lib.rs:447-456 | a new envelope starts in Attack at level 0 with the given times and sustain, and is well formed when the defaults are in their domain |
| Envelope.PerVoiceAdsr.NoteOff | src/lib.rs:457-459 | note-off enters Release from any stage, keeps the level and the times, and keeps the envelope well formed |
| Envelope.PerVoiceAdsr.Tick | src/lib.rs:460-488 | a tick keeps the times; Idle and Sustain are left unchanged; in Attack, Decay and Release the level ramps by `dt / time.max(1e-6)` (decay scaled by `1 - sustain`), and the stage moves on (Attack→Decay, Decay→Sustain, Release→Idle) exactly when the ramped level reaches 1, sustain or 0, the level then being pinned to that threshold |
| Envelope.TickPreservesWf | src/lib.rs:460-488 | with dt > 0 a tick keeps the level in [0,1] and consistent with the stage: below 1 in Attack, at least sustain in Decay, equal to sustain in Sustain, 0 in Idle |
| Envelope.DecayStepNonNegative | src/lib.rs:470-471 | with sustain ≤ 1 a decay step never raises the level |
| Envelope.TickNMonotone | src/lib.rs:460-488 | any number of ticks never returns to an earlier stage |
| Envelope.HeldStagesStay | src/lib.rs:461-477 | Idle and Sustain are held by any number of ticks |
| Envelope.ReleaseReachesIdle | src/lib.rs:478-484 | a released envelope is Idle at level 0 once enough release steps have elapsed to cover its level |
| Envelope.DecaySettlesAtSustain | src/lib.rs:470-476 | a decaying envelope reaches Sustain at exactly the sustain level once enough decay steps have elapsed |
| Envelope.AttackEnds | src/lib.rs:463-469 | an attacking envelope leaves Attack once enough attack steps have elapsed to reach the peak |
| Dsp.Lfo.Retrigger | src/lib.rs:509-511 | retrigger resets the phase to 0 and keeps rate, amount and shape |
| Dsp.Lfo.Tick | src/lib.rs:506-508 | an LFO tick changes only the phase |
| Dsp.Lfo.Value | src/lib.rs:512-530 | the LFO output is 0 at amount 0, and within [-amount, amount] whenever the shape lies in [-1,1] |
| Dsp.SilentLfo | src/lib.rs:512-530 | an LFO with amount 0 outputs 0 whatever its shape and phase |
| Dsp.ModMatrix.SetByName | src/lib.rs:557-568 | a known route name sets exactly that route, every other route keeps its depth, and an unknown name changes nothing |
| Dsp.GetDeterminesMatrix | src/lib.rs:534-568 | the seven route names cover the whole matrix: matrices that agree on every name are equal |
| Dsp.StateVarFilter.SetCutoff | src/lib.rs:591-593 | set_cutoff changes only the base cutoff |
| Dsp.StateVarFilter.Coefficient | src/lib.rs:595 | the integrator gain is clamped to [0,1] |
| Dsp.StateVarFilter.Process | src/lib.rs:594-600 | one filter step keeps cutoff, resonance and rate; the output `low' = low + f·band`, then `high = x - low' - q·band` and `band' = band + f·high` |
| Dsp.FilterSilenceInSilenceOut | src/lib.rs:594-600 | a filter at rest fed silence stays at rest and outputs 0 |
| Voices.NewVoice | src/lib.rs:350-361 | a new voice carries the note, frequency and velocity, is alive, and starts a fresh envelope, so it is not finished |
| Voices.Voice.IsFinished | src/lib.rs:425-427 | a finished voice is silent when its envelope is well formed, and an unfinished voice is in Attack, Decay, Sustain or Release |
| Voices.Amplitude | src/lib.rs:420 | with non-negative velocity the amplitude lies in [0, 4·velocity]; a silent envelope gives 0; with no amplitude modulation it is level times velocity |
| Voices.RenderVoice | src/lib.rs:363-423 | rendering keeps note, frequency and velocity and ticks the envelope once; with both oscillator gains 0, or a silent envelope, the sample is 0 |
| Voices.RenderPass | src/lib.rs:238-250 | one retain pass keeps no finished voice, never grows the pool, and keeps the surviving notes in their old order |
| Voices.RenderPassKeepsWf | src/lib.rs:238-250 | with dt > 0 every surviving voice's envelope is well formed |
| Voices.SurvivorIndices | src/lib.rs:238-250 | the positions of the pool whose ticked envelope is not Idle, strictly increasing: a position is listed exactly when its voice's tick does not reach Idle |
| Voices.RenderPassKeepsSurvivors | src/lib.rs:238-250 | the kept voices are exactly the rendered voices (ticked, phases advanced) at `SurvivorIndices`, in pool order: a pass drops precisely the voices that reach Idle and keeps the rendered state of every other |
| Voices.RenderPassRetiresOnlyReleasing | src/lib.rs:238-250 | a pass keeps as many voices as there are voices whose tick does not reach Idle, and a pool with no releasing voice loses none |
| Parameters.FieldNamesAreNotModNames | src/lib.rs:84-125 | no fixed parameter name starts with `mod_`, so testing the prefix first selects the same arm |
| Parameters.ParseName | src/lib.rs:84-125 | exactly the `mod_*` names go to the modulation matrix, and a route carries the whole name |
| Parameters.Apply | src/lib.rs:86-123 | the sync placeholders and an unrecognised name change nothing; only a route identifier writes the matrix, and it writes nothing else |
| Parameters.ApplyParameter | src/lib.rs:83-126 | `_volume` is an alias of `_gain` for both oscillators, each writing only that gain; a `mod_*` name is handed to set_by_name and changes nothing else |
| Parameters.ParseNameRecognises | src/lib.rs:84-125 | a name is unrecognised exactly when it is outside the table and lacks the `mod_` prefix |
| Parameters.ApplyKeepsDomain | src/lib.rs:94-117 | every arm keeps every clamped field in its domain |
| Parameters.SetParameterKeepsDomain | src/lib.rs:83-126 | whatever the name and value, set_parameter keeps every clamped field in its domain |
| Parameters.SetParameterClamps | src/lib.rs:94-117 | after the clamped arms: attack, decay and release ≥ 0.0001; sustain in [0,1]; cutoff ≥ 20; resonance and LFO rates ≥ 0; delay time in [0,5]; feedback in [0,0.99]; wets in [0,1] |
| Parameters.SetParameterStoresInDomainValues | src/lib.rs:95-116 | every clamped arm (attack, decay, sustain, release, cutoff, resonance, both LFO rates, delay time, feedback, delay wet, reverb wet) stores an in-domain value unchanged |
| Parameters.SetParameterStoresUnclampedValues | src/lib.rs:88-120 | the unclamped arms (both gains, both detunes, both LFO amounts, master gain) store any value as given |
| Parameters.UnknownNameIsNoOp | src/lib.rs:92-125 | unknown names, unknown `mod_*` names and the sync placeholders change no field |
| Parameters.ModNameSetsRoute | src/lib.rs:122-123 | a route name writes that route and changes nothing else |
| Parameters.ApplyPreset | src/lib.rs:193-222 | import has no key for the modulation routes, the LFO settings, the filter-envelope switch or the effect settings, and never changes them |
| Parameters.PresetWithoutKeysIsNoOp | src/lib.rs:195-207 | an object with none of the numeric keys changes nothing |
| Parameters.PresetKeepsDomain | src/lib.rs:202-207 | import keeps every clamped field in its domain |
| Parameters.PresetMasterGainAgreesWithSetParameter | src/lib.rs:196 | importing the master gain does exactly what set_parameter does with `master_gain` |
| Parameters.PresetOsc0WaveformAgreesWithSetParameter | src/lib.rs:197-198 | importing `osc0_waveform` converts the number to a waveform exactly as set_parameter does |
| Parameters.PresetOsc0GainAgreesWithSetParameter | src/lib.rs:197-199 | importing `osc0_gain` does exactly what set_parameter does with that name |
| Parameters.PresetOsc0DetuneAgreesWithSetParameter | src/lib.rs:197-200 | importing `osc0_detune` does exactly what set_parameter does with that name |
| Parameters.PresetOsc1WaveformAgreesWithSetParameter | src/lib.rs:197-198 | importing `osc1_waveform` converts the number to a waveform exactly as set_parameter does |
| Parameters.PresetOsc1GainAgreesWithSetParameter | src/lib.rs:197-199 | importing `osc1_gain` does exactly what set_parameter does with that name |
| Parameters.PresetOsc1DetuneAgreesWithSetParameter | src/lib.rs:197-200 | importing `osc1_detune` does exactly what set_parameter does with that name |
| Parameters.PresetEnvAttackAgreesWithSetParameter | src/lib.rs:202 | importing the attack time applies the same 0.0001 floor as set_parameter |
| Parameters.PresetEnvDecayAgreesWithSetParameter | src/lib.rs:203 | importing the decay time applies the same 0.0001 floor as set_parameter |
| Parameters.PresetEnvSustainAgreesWithSetParameter | src/lib.rs:204 | importing the sustain level applies the same [0,1] clamp as set_parameter |
| Parameters.PresetEnvReleaseAgreesWithSetParameter | src/lib.rs:205 | importing the release time applies the same 0.0001 floor as set_parameter |
| Parameters.PresetFilterCutoffAgreesWithSetParameter | src/lib.rs:206 | importing the cutoff applies the same 20 Hz floor as set_parameter |
| Parameters.PresetFilterResonanceAgreesWithSetParameter | src/lib.rs:207 | importing the resonance applies the same floor at 0 as set_parameter |
| Parameters.PresetOsc0KeysActLikeArms | src/lib.rs:196-201 | whatever else the object holds, a present master-gain or first-oscillator key sets its field as the `set_parameter` arm of that name |
| Parameters.PresetOsc1KeysActLikeArms | src/lib.rs:197-201 | whatever else the object holds, each present second-oscillator key sets its field as the `set_parameter` arm of that name |
| Parameters.PresetEnvFilterKeysActLikeArms | src/lib.rs:202-207 | whatever else the object holds, each present envelope or filter key sets its field through the clamp of the `set_parameter` arm of that name |
| Effects.Behind | src/lib.rs:630 | the slot `d` behind `w` in a ring of `n` slots is a valid slot, stepping `d` forward from it returns to `w`, and with `d` zero it is `w` itself |
| Effects.BehindWraps | src/lib.rs:630 | stepping `d` slots back from the write position and `d` forward returns to it, modulo the buffer length |
| Effects.Mix | src/lib.rs:634 | the dry/wet mix is dry at wet 0, processed at wet 1, and unchanged when both signals agree |
| Effects.Feedback | src/lib.rs:632 | the written-back sample is the input alone at feedback 0 |
| Effects.SimpleDelay.constructor | src/lib.rs:613-624 | a silent buffer of `max(1, sr·5 as usize)` slots, write position 0, wet 0.35 |
| Effects.SimpleDelay.SetTime | src/lib.rs:625-627 | the delay time is clamped to [0,5] and nothing else changes |
| Effects.SimpleDelay.Offset | src/lib.rs:629 | the delay in samples, reduced modulo the length, is a valid offset |
| Effects.SimpleDelay.ReadIndex | src/lib.rs:630 | the read slot is in range and lies exactly `Offset()` slots behind the write position, so a zero delay reads the slot being written |
| Effects.SimpleDelay.Process | src/lib.rs:628-635 | only the slot at the old write position changes, taking input plus fed-back delayed sample; the position advances modulo the length; the output mixes dry and delayed |
| Effects.SimpleReverb.constructor | src/lib.rs:645-653 | a silent comb of `max(1, sr·0.05 as usize)` slots, position 0, wet 0.25 |
| Effects.SimpleReverb.Process | src/lib.rs:654-660 | only the current slot changes, taking input plus 0.3 times its old value; the position advances modulo the length; the output mixes dry and comb |
| Wavetables.Resample | src/lib.rs:138-146 | the resampled table has exactly 2048 samples |
| Wavetables.IndicesInRange | src/lib.rs:141-143 | both interpolation indices `i0` and `i1` are below the input length, and the fraction lies in [0,1) |
| Wavetables.LowerIsFloor | src/lib.rs:140-142 | for the 2048 positions `i0` is the floor of the position, and `i1` wraps to 0 exactly when `i0` is the last input sample |
| Wavetables.InterpolationBetween | src/lib.rs:144 | a linear interpolation lies between any bounds that hold of both endpoints |
| Wavetables.ResampleBounded | src/lib.rs:138-146 | an input within [lo,hi] gives a table within [lo,hi] |
| Wavetables.ResampleFullSizeIsIdentity | src/lib.rs:138-146 | resampling a 2048-sample input returns it unchanged |
| Synth.Admit | src/lib.rs:60-69 | the new voice is last in the pool |
| Synth.AdmitKeepsNewest | src/lib.rs:60-69 | from a pool within the cap the pool stays within 64; it grows by one unless full; what precedes the new voice is the newest old voices in order, so only `voices[0]` can be stolen |
| Synth.ReleaseIfNote | src/lib.rs:74-78 | note-off changes only a voice's envelope: note, frequency, velocity and phases are kept, the stage becomes Release exactly for the matching note, and the level never jumps |
| Synth.ReleaseIfNoteSpec | src/lib.rs:74-78 | a voice playing the note enters Release at its level; any other voice is unchanged; well-formedness and liveness are kept |
| Synth.SineTable | src/lib.rs:34-37 | the default table has 2048 samples |
| Synth.FillSineTable | src/lib.rs:34-37 | the loop fills sample `i` with sin(2π·i/2048) |
| Synth.Retain | src/lib.rs:237-250 | the retain loop computes exactly one `RenderPass`: the same mix and the same surviving voices |
| Synth.CutoffMod | src/lib.rs:253-255 | with both LFOs silent, or both LFO cutoff routes at 0, the modulation is the envelope route's depth alone |
| Synth.ModulatedCutoff | src/lib.rs:253-258 | the cutoff never exceeds 0.49·rate, is at least 20 Hz when the rate allows it, and is the base plus 2000·mod when that is in range |
| Synth.CutoffModulationAccumulates | src/lib.rs:256-258 | storing the modulated cutoff back makes a constant modulation accumulate over frames |
| Synth.OutputSample | src/lib.rs:265 | every output sample lies in [-1,1], and an in-range product passes unchanged |
| Synth.RunEffects | src/lib.rs:261-263 | the delay's output feeds the reverb: each buffer changes in one slot, and the result is the chained dry/wet mix |
| Synth.Synthesizer.constructor | src/lib.rs:30-56 | default oscillators, ADSR, LFOs and routes; two sine tables; an empty pool; filter at 1200 Hz and q 0.6; a silent delay of 5 s at 0.3 s, feedback 0.35 and wet 0.35, and a silent 50 ms comb at wet 0.25, both at position 0; master gain 0.9; the engine invariant holds and every setting is in its domain |
| Synth.Synthesizer.NoteOn | src/lib.rs:58-70 | the pool becomes `Admit(old pool, new voice)` with the given phases; LFO 0 is retriggered exactly when retrigger is on; the invariant (≤ 64 voices, none finished) holds |
| Synth.Synthesizer.NoteOff | src/lib.rs:73-79 | the pool keeps its length, and each voice is released if and only if it plays the note |
| Synth.Synthesizer.SetParameter | src/lib.rs:83-126 | the parameter fields become `ApplyParameter(old, name, value)`, domains are kept, and voices, tables, LFO phases, filter state and effect positions are untouched |
| Synth.Synthesizer.SetOscParameter | src/lib.rs:86-92 | the oscillator arms write exactly their field |
| Synth.Synthesizer.SetEnvFilterParameter | src/lib.rs:95-103 | the envelope and filter arms write exactly their field through its clamp |
| Synth.Synthesizer.SetLfoParameter | src/lib.rs:106-110 | the LFO arms write exactly their field |
| Synth.Synthesizer.SetFxParameter | src/lib.rs:113-116 | the effect arms write exactly their field through its clamp |
| Synth.Synthesizer.SetOtherParameter | src/lib.rs:119-123 | the master-gain arm writes the gain, a `mod_*` route goes to the matrix, and the remaining names change nothing |
| Synth.Synthesizer.SetWavetable | src/lib.rs:130-149 | slot ≥ 2 or empty input leaves the tables alone; otherwise only the given slot changes, becoming the 2048-sample resampling of the input |
| Synth.Synthesizer.GetWavetable | src/lib.rs:152-158 | slot 0 or 1 gives that table, and any other slot gives 2048 zeros |
| Synth.Synthesizer.ImportNumbers | src/lib.rs:195-207 | the parameter fields become `ApplyPreset(old, obj)`, and the runtime state (pool, tables, LFO phases and shapes, filter state, effect positions) is untouched |
| Synth.Synthesizer.ImportPreset | src/lib.rs:193-222 | a primitive or `null` (or unparsable text) is refused and changes nothing; an object or array has its numeric keys applied as `ApplyPreset`; with a `wavetables` member each of its first two `Float32Array` entries then goes through set_wavetable and the import succeeds, and without one the call throws with the tables unchanged; the rest of the runtime state is untouched and domains are kept |
| Synth.Synthesizer.MixVoices | src/lib.rs:230-250 | both LFOs tick, then the pool becomes the voices one `RenderPass` keeps, in order, and the mix is that pass's sum |
| Synth.Synthesizer.FilterVoices | src/lib.rs:231-261 | the voice half of a frame: both LFOs tick, the pool becomes the kept voices of a render pass, the filter takes the cutoff modulated by the ticked LFOs and the envelope route and then the pass's mix, and the result is the filter's low-pass output; the oscillator, envelope, matrix and switch settings are kept |
| Synth.Synthesizer.RenderFrame | src/lib.rs:228-266 | one frame: LFOs tick, the pool is retained, the filter takes the modulated cutoff and the mix; the delay buffer changes only at its write position, to the filter output plus fed-back delayed sample, and the comb only at its position, to the delay output plus 0.3 times its old value; the sample is the clamped chain output; the base cutoff becomes the frame's modulated cutoff, so it lies in [20, 0.49·rate] when that range is not empty; every other setting is kept |
| Synth.Synthesizer.RenderAudio | src/lib.rs:226-268 | exactly `frames` samples, each in [-1,1]; no Idle voice remains; the surviving notes are an in-order sub-sequence of the old pool; every setting keeps its value except the base cutoff; after at least one frame the base cutoff lies in the range of a modulated cutoff, at most 0.49 times the rate and at least 20 Hz when the rate allows it |

## Left out

- `export_preset` (src/lib.rs:160-190) is left out. It is JSON serialisation through host objects. It writes `mod_*` keys that import never reads, and only the first 256 samples of each table, so import and export are not inverses.
- JSON parsing, `Reflect`, `Array::from`, `Float32Array` copying and `get_into`'s `f64`→`f32` conversion are host calls. `Synth.Synthesizer.ImportPreset` takes the parsed value as an `Option<Preset>` of numeric members and the entries of its `wavetables` member: `None` for unparsable text, `null`, a number, a string or a boolean, which fail the `Object` test; a JSON array passes that test and is a `Preset` with no keys and no `wavetables` member, so it ends in `Threw`. A missing or `null` `wavetables` member is one case where `Array::from` throws; the model reports it as the `Threw` outcome. In the source, `JSON::parse` never produces a `Float32Array`, so its `set_wavetable` branch cannot fire on real input.
- What happens to later calls after `import_preset` throws is not modelled: the exception leaves the Rust frame without unwinding it.
- The transcendental and random functions are `Kernel` parameters, not definitions: `midi_to_freq`, the sine of the default table and the filter, `LFO::tick` and `LFO::value`, the oscillator formulas of `Voice::render` and `rand_range`. `rand_phase` is a parameter of `NoteOn`.
- `f32` semantics are left out: rounding, NaN and infinities. All arithmetic is exact over `real`.
- Dsp.Lfo.Value: the LFO shapes come from the kernel. In the source, shape 1 is `(2/π)·asin(phase)` over a phase in [0, 2π), which is undefined for phases above 1 and is not the triangle its label says. No operation writes an LFO's `waveform`, so only the sine shape is ever used; the model does not capture the other shapes.
- Synth.Synthesizer.constructor: requires a positive sample rate. The source accepts any `f32`, and a zero rate would make `render_audio` divide by zero.
- Envelope.PerVoiceAdsr.Tick: is a function returning the updated envelope, not an in-place update. A `PerVoiceADSR` is owned by value by its voice, so there is no aliasing to lose. `Voice::render` likewise returns the updated voice.
- Voices.RenderVoice: does not state the sample's value beyond the zero cases, because the oscillator formulas are kernel functions.
- `set_panic_hook` and the unused `_filter_env_enabled` argument and `alive` field have no behaviour to model.
- Concurrency: none exists in the source, and none is modelled.
