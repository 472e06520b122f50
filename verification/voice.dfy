/** A sounding note (`Voice`), one sample of its signal chain
    (`Voice::render`), and one pass of the renderer over the voice pool:
    every voice is rendered, its sample added to the mix, and the voices
    whose envelope has reached Idle are dropped (`Vec::retain_mut`). */
module Voices {
  import opened Numeric
  import opened Envelope
  import opened Dsp
  import opened Subsequences

  /** `Voice`. */
  datatype Voice = Voice(
    midiNote: Byte, freq: real, vel: real,
    phase0: real, phase1: real,
    env: PerVoiceAdsr, alive: bool)
  {
    /** `Voice::is_finished`: the envelope is Idle. With a well-formed
        envelope a finished voice is silent, and an unfinished one is in a
        sounding stage. */
    predicate IsFinished(): (b: bool)
      ensures b && env.Wf() ==> env.level == 0.0
      ensures !b ==> env.state in {Attack, Decay, Sustain, Release}
    {
      env.state == Idle
    }
  }

  /** `Voice::new`: a voice for note `m` at frequency `f`, its envelope
      freshly started from the engine's ADSR settings. */
  function NewVoice(m: Byte, f: real, vel: real, d: AdsrParams): (v: Voice)
    ensures v.midiNote == m && v.freq == f && v.vel == vel && v.alive
    ensures v.env == NewEnvelope(d)
    ensures !v.IsFinished()
  {
    Voice(m, f, vel, 0.0, 0.0, NewEnvelope(d), true)
  }

  /** What `Voice::render` reads besides the voice: the tick length, the
      two oscillators' settings and tables, the two LFOs, the modulation
      matrix and the sample rate. */
  datatype RenderContext = RenderContext(
    dt: real,
    osc0: OscSettings, osc1: OscSettings,
    table0: seq<real>, table1: seq<real>,
    lfo0: Lfo, lfo1: Lfo,
    mods: ModMatrix,
    sampleRate: real)

  /** The voice after a sample, and the sample it produced. */
  datatype Rendered = Rendered(voice: Voice, sample: real)

  /** Amplitude factor of a voice: envelope level with LFO amplitude
      modulation, clamped to [0,4], times velocity. With a non-negative
      velocity it lies in [0, 4·velocity]; a silent envelope gives 0; with
      no amplitude modulation it is the level times the velocity. */
  function Amplitude(level: real, ampLfo: real, vel: real): (a: real)
    ensures vel >= 0.0 ==> 0.0 <= a <= 4.0 * vel
    ensures level == 0.0 ==> a == 0.0
    ensures ampLfo == 0.0 && 0.0 <= level <= 1.0 ==> a == level * vel
  {
    var c := Clamp(level * (1.0 + ampLfo), 0.0, 4.0);
    WithinFactor(c, vel);
    c * vel
  }

  /** `c·v` lies in [0, 4v] for `c` in [0,4] and non-negative `v`. */
  lemma WithinFactor(c: real, v: real)
    requires 0.0 <= c <= 4.0
    ensures v >= 0.0 ==> 0.0 <= c * v <= 4.0 * v
  {
    if v >= 0.0 {
      assert (4.0 - c) * v >= 0.0;
    }
  }

  /** `Voice::render`: both oscillators advance (kernel), their samples are
      weighted by gain, the envelope ticks once, and the sum is scaled by
      the amplitude. The note, frequency and velocity are kept. */
  function RenderVoice(v: Voice, ctx: RenderContext, k: Kernel): (r: Rendered)
    ensures r.voice.midiNote == v.midiNote && r.voice.freq == v.freq && r.voice.vel == v.vel
    ensures r.voice.env == v.env.Tick(ctx.dt)
    ensures ctx.osc0.gain == 0.0 && ctx.osc1.gain == 0.0 ==> r.sample == 0.0
    ensures r.voice.env.level == 0.0 ==> r.sample == 0.0
  {
    var wtposMod := ctx.lfo0.Value(k) * ctx.mods.lfo0ToWtpos + ctx.lfo1.Value(k) * ctx.mods.lfo1ToWtpos;
    var o0 := k.oscillator(ctx.osc0, ctx.table0, v.freq, v.phase0, wtposMod, ctx.sampleRate);
    var o1 := k.oscillator(ctx.osc1, ctx.table1, v.freq, v.phase1, wtposMod, ctx.sampleRate);
    var s := 0.0 + o0.sample * ctx.osc0.gain + o1.sample * ctx.osc1.gain;
    var env := v.env.Tick(ctx.dt);
    var ampLfo := ctx.lfo0.Value(k) * ctx.mods.lfo0ToAmp + ctx.lfo1.Value(k) * ctx.mods.lfo1ToAmp;
    Rendered(v.(phase0 := o0.phase, phase1 := o1.phase, env := env), s * Amplitude(env.level, ampLfo, v.vel))
  }

  /** The MIDI notes of a voice pool, in pool order. */
  function Notes(vs: seq<Voice>): (ns: seq<Byte>)
    ensures |ns| == |vs| && forall i | 0 <= i < |vs| :: ns[i] == vs[i].midiNote
  {
    seq(|vs|, i requires 0 <= i < |vs| => vs[i].midiNote)
  }

  /** Mixed sample and surviving voices of one pass. */
  datatype Pass = Pass(kept: seq<Voice>, mix: real)

  /** One `retain_mut` pass over `vs`, left to right: the mix is the sum of
      all rendered samples; the kept voices are the rendered voices that are
      not finished, in pool order. */
  function RenderPass(vs: seq<Voice>, ctx: RenderContext, k: Kernel): (p: Pass)
    ensures |p.kept| <= |vs|
    ensures forall i | 0 <= i < |p.kept| :: !p.kept[i].IsFinished()
    ensures IsSubsequence(Notes(p.kept), Notes(vs))
    decreases |vs|
  {
    if vs == [] then Pass([], 0.0)
    else
      var prev := RenderPass(vs[..|vs| - 1], ctx, k);
      var r := RenderVoice(vs[|vs| - 1], ctx, k);
      assert Notes(vs) == Notes(vs[..|vs| - 1]) + [vs[|vs| - 1].midiNote];
      if r.voice.IsFinished() then
        DropLast(Notes(prev.kept), Notes(vs[..|vs| - 1]), vs[|vs| - 1].midiNote);
        Pass(prev.kept, prev.mix + r.sample)
      else
        assert Notes(prev.kept + [r.voice]) == Notes(prev.kept) + [vs[|vs| - 1].midiNote];
        KeepLast(Notes(prev.kept), Notes(vs[..|vs| - 1]), vs[|vs| - 1].midiNote);
        Pass(prev.kept + [r.voice], prev.mix + r.sample)
  }

  /** Voices whose envelopes are well formed. */
  ghost predicate AllWf(vs: seq<Voice>)
  {
    forall i | 0 <= i < |vs| :: vs[i].env.Wf()
  }

  /** Voices none of which is finished. */
  ghost predicate NoneFinished(vs: seq<Voice>)
  {
    forall i | 0 <= i < |vs| :: !vs[i].IsFinished()
  }

  /** With a positive tick, a pass keeps every envelope well formed. */
  lemma {:induction false} RenderPassKeepsWf(vs: seq<Voice>, ctx: RenderContext, k: Kernel)
    requires AllWf(vs) && ctx.dt > 0.0
    ensures AllWf(RenderPass(vs, ctx, k).kept)
    decreases |vs|
  {
    if vs != [] {
      RenderPassKeepsWf(vs[..|vs| - 1], ctx, k);
      TickPreservesWf(vs[|vs| - 1].env, ctx.dt);
    }
  }

  /** Exactly the voices whose tick reaches Idle are dropped: the kept
      voices are the rendered voices at the positions `SurvivorIndices`
      selects, in pool order. */
  lemma {:induction false} RenderPassKeepsSurvivors(vs: seq<Voice>, ctx: RenderContext, k: Kernel)
    ensures var kept := RenderPass(vs, ctx, k).kept;
      var idx := SurvivorIndices(vs, ctx.dt);
      && |kept| == |idx|
      && forall j | 0 <= j < |idx| :: kept[j] == RenderVoice(vs[idx[j]], ctx, k).voice
    decreases |vs|
  {
    if vs != [] {
      var init := vs[..|vs| - 1];
      RenderPassKeepsSurvivors(init, ctx, k);
      var prev := RenderPass(init, ctx, k);
      var prevIdx := SurvivorIndices(init, ctx.dt);
      var r := RenderVoice(vs[|vs| - 1], ctx, k);
      assert RenderPass(vs, ctx, k).kept == if r.voice.IsFinished() then prev.kept else prev.kept + [r.voice];
      assert SurvivorIndices(vs, ctx.dt) == if r.voice.IsFinished() then prevIdx else prevIdx + [|vs| - 1];
      forall j | 0 <= j < |prevIdx|
        ensures vs[prevIdx[j]] == init[prevIdx[j]]
      {
      }
    }
  }

  /** So a pass keeps as many voices as there are voices whose ticked
      envelope is not Idle, and a voice that was not releasing is never
      dropped. */
  lemma {:induction false} RenderPassRetiresOnlyReleasing(vs: seq<Voice>, ctx: RenderContext, k: Kernel)
    requires NoneFinished(vs)
    ensures |RenderPass(vs, ctx, k).kept| == |vs| - Retiring(vs, ctx.dt)
    ensures (forall i | 0 <= i < |vs| :: vs[i].env.state != Release) ==> |RenderPass(vs, ctx, k).kept| == |vs|
    decreases |vs|
  {
    if vs != [] {
      RenderPassRetiresOnlyReleasing(vs[..|vs| - 1], ctx, k);
    }
  }

  /** The positions in `vs` of the voices whose envelope is not Idle after
      one tick, in increasing order. */
  function SurvivorIndices(vs: seq<Voice>, dt: real): (idx: seq<nat>)
    ensures forall j | 0 <= j < |idx| :: idx[j] < |vs|
    ensures forall j1, j2 | 0 <= j1 < j2 < |idx| :: idx[j1] < idx[j2]
    ensures forall i | 0 <= i < |vs| :: i in idx <==> vs[i].env.Tick(dt).state != Idle
    decreases |vs|
  {
    if vs == [] then []
    else
      var init := SurvivorIndices(vs[..|vs| - 1], dt);
      assert forall i | 0 <= i < |vs| - 1 :: vs[..|vs| - 1][i] == vs[i];
      if vs[|vs| - 1].env.Tick(dt).state == Idle then init else init + [|vs| - 1]
  }

  /** Number of voices in `vs` whose envelope is Idle after one tick. */
  function Retiring(vs: seq<Voice>, dt: real): nat
    decreases |vs|
  {
    if vs == [] then 0
    else Retiring(vs[..|vs| - 1], dt) + (if vs[|vs| - 1].env.Tick(dt).state == Idle then 1 else 0)
  }
}
