/** The per-voice ADSR envelope (`PerVoiceADSR`): a state machine over
    Idle, Attack, Decay, Sustain and Release whose level ramps linearly and
    is clamped to the threshold at which each stage ends. */
module Envelope {
  import opened Numeric

  /** `ADSRParams`: times in seconds and the sustain level. */
  datatype AdsrParams = AdsrParams(attack: real, decay: real, sustain: real, release: real)
  {
    /** The domain `set_parameter` and `import_preset` keep these values in. */
    ghost predicate InDomain() {
      attack >= 0.0001 && decay >= 0.0001 && release >= 0.0001 && 0.0 <= sustain <= 1.0
    }
  }

  /** `ADSRParams::default()`. */
  const DefaultParams := AdsrParams(0.01, 0.2, 0.8, 0.3)

  datatype AdsrState = Idle | Attack | Decay | Sustain | Release

  /** Position of a stage in the cycle Attack, Decay, Sustain, Release, Idle. */
  function Rank(s: AdsrState): nat
  {
    match s
    case Attack => 0
    case Decay => 1
    case Sustain => 2
    case Release => 3
    case Idle => 4
  }

  /** The only stage changes `tick` makes on its own. */
  predicate TickTransition(from: AdsrState, to: AdsrState)
  {
    (from == Attack && to == Decay) || (from == Decay && to == Sustain) || (from == Release && to == Idle)
  }

  /** Smallest time constant `tick` divides by (`x.max(1e-6)`). */
  const MinTime: real := 0.000001

  datatype PerVoiceAdsr = PerVoiceAdsr(
    attack: real, decay: real, sustain: real, release: real,
    state: AdsrState, level: real)
  {
    /** Level change per tick in each ramping stage. */
    function AttackStep(dt: real): real { dt / Max(attack, MinTime) }
    function DecayStep(dt: real): real { dt / Max(decay, MinTime) * (1.0 - sustain) }
    function ReleaseStep(dt: real): real { dt / Max(release, MinTime) }

    /** The envelope's invariant: the level lies in [0,1] and agrees with the
        stage (below the peak while attacking, at or above sustain while
        decaying, exactly sustain while sustaining, zero when idle). */
    ghost predicate Wf() {
      && 0.0 <= sustain <= 1.0
      && 0.0 <= level <= 1.0
      && (state == Attack ==> level < 1.0)
      && (state == Decay ==> sustain <= level)
      && (state == Sustain ==> level == sustain)
      && (state == Idle ==> level == 0.0)
    }

    /** `PerVoiceADSR::note_off`: enter Release from wherever the envelope is,
        keeping the current level (no click). */
    function NoteOff(): (e: PerVoiceAdsr)
      ensures e.state == Release && e.level == level
      ensures e.attack == attack && e.decay == decay && e.sustain == sustain && e.release == release
      ensures Wf() ==> e.Wf()
    {
      this.(state := Release)
    }

    /** `PerVoiceADSR::tick`: advance one sample of `dt` seconds; the new
        level is the value `tick` returns. */
    function Tick(dt: real): (e: PerVoiceAdsr)
      ensures e.attack == attack && e.decay == decay && e.sustain == sustain && e.release == release
      ensures e.state == state || TickTransition(state, e.state)
      ensures Rank(state) <= Rank(e.state)
      ensures e.state == Decay && state == Attack ==> e.level == 1.0
      ensures e.state == Sustain && state == Decay ==> e.level == sustain
      ensures e.state == Idle && state == Release ==> e.level == 0.0
      ensures state in {Idle, Sustain} ==> e == this
      ensures state == Attack ==> (e.state == Decay <==> level + AttackStep(dt) >= 1.0)
      ensures state == Decay ==> (e.state == Sustain <==> level - DecayStep(dt) <= sustain)
      ensures state == Release ==> (e.state == Idle <==> level - ReleaseStep(dt) <= 0.0)
      ensures e.state == state == Attack ==> e.level == level + AttackStep(dt)
      ensures e.state == state == Decay ==> e.level == level - DecayStep(dt)
      ensures e.state == state == Release ==> e.level == level - ReleaseStep(dt)
    {
      match state
      case Idle => this
      case Attack =>
        var l := level + AttackStep(dt);
        if l >= 1.0 then this.(level := 1.0, state := Decay) else this.(level := l)
      case Decay =>
        var l := level - DecayStep(dt);
        if l <= sustain then this.(level := sustain, state := Sustain) else this.(level := l)
      case Sustain => this
      case Release =>
        var l := level - ReleaseStep(dt);
        if l <= 0.0 then this.(level := 0.0, state := Idle) else this.(level := l)
    }

    /** `n` consecutive ticks. */
    function TickN(dt: real, n: nat): PerVoiceAdsr
      decreases n
    {
      if n == 0 then this else Tick(dt).TickN(dt, n - 1)
    }
  }

  /** `PerVoiceADSR::new`: a fresh envelope starts its attack from silence
      with the given times and sustain. */
  function NewEnvelope(d: AdsrParams): (e: PerVoiceAdsr)
    ensures e.state == Attack && e.level == 0.0
    ensures e.attack == d.attack && e.decay == d.decay && e.sustain == d.sustain && e.release == d.release
    ensures d.InDomain() ==> e.Wf()
  {
    PerVoiceAdsr(d.attack, d.decay, d.sustain, d.release, Attack, 0.0)
  }

  /** With a positive time step, a tick keeps the envelope well formed; in
      particular the level stays in [0,1]. */
  lemma TickPreservesWf(e: PerVoiceAdsr, dt: real)
    requires e.Wf() && dt > 0.0
    ensures e.Tick(dt).Wf()
    ensures 0.0 <= e.Tick(dt).level <= 1.0
  {
    assert Max(e.attack, MinTime) > 0.0 && Max(e.decay, MinTime) > 0.0 && Max(e.release, MinTime) > 0.0;
    assert e.AttackStep(dt) > 0.0 && e.ReleaseStep(dt) > 0.0;
    DecayStepNonNegative(e, dt);
  }

  /** With a sustain level at most 1, a decay step never raises the level. */
  lemma DecayStepNonNegative(e: PerVoiceAdsr, dt: real)
    requires e.sustain <= 1.0 && dt > 0.0
    ensures e.DecayStep(dt) >= 0.0
  {
    var a := dt / Max(e.decay, MinTime);
    assert a > 0.0;
    var b := 1.0 - e.sustain;
    assert a * b >= 0.0 by {
      if b > 0.0 { assert a * b > 0.0 * b; } else { assert b == 0.0; }
    }
  }

  /** Ticking never leaves a later stage for an earlier one. */
  lemma {:induction false} TickNMonotone(e: PerVoiceAdsr, dt: real, n: nat)
    ensures Rank(e.state) <= Rank(e.TickN(dt, n).state)
    decreases n
  {
    if n > 0 {
      TickNMonotone(e.Tick(dt), dt, n - 1);
    }
  }

  /** Idle and Sustain are held indefinitely by ticking alone. */
  lemma {:induction false} HeldStagesStay(e: PerVoiceAdsr, dt: real, n: nat)
    requires e.state in {Idle, Sustain}
    ensures e.TickN(dt, n) == e
    decreases n
  {
    if n > 0 {
      HeldStagesStay(e.Tick(dt), dt, n - 1);
    }
  }

  /** A released envelope is Idle (and silent) after `n` ticks once `n`
      release steps cover its level: a released voice is eventually retired. */
  lemma {:induction false} ReleaseReachesIdle(e: PerVoiceAdsr, dt: real, n: nat)
    requires e.state == Release && e.level >= 0.0 && dt > 0.0
    requires n >= 1 && n as real * e.ReleaseStep(dt) >= e.level
    ensures e.TickN(dt, n).state == Idle && e.TickN(dt, n).level == 0.0
    decreases n
  {
    var step := e.ReleaseStep(dt);
    assert Max(e.release, MinTime) > 0.0;
    assert step > 0.0;
    var t := e.Tick(dt);
    if t.state == Idle {
      HeldStagesStay(t, dt, n - 1);
    } else {
      assert t.level == e.level - step > 0.0;
      assert (n - 1) as real * step == n as real * step - step;
      assert (n - 1) as real * step > 0.0;
      ReleaseReachesIdle(t, dt, n - 1);
    }
  }

  /** A decaying envelope settles at exactly the sustain level after `n`
      ticks once `n` decay steps cover the distance to sustain, and holds it. */
  lemma {:induction false} DecaySettlesAtSustain(e: PerVoiceAdsr, dt: real, n: nat)
    requires e.Wf() && e.state == Decay && dt > 0.0
    requires n >= 1 && n as real * e.DecayStep(dt) >= e.level - e.sustain
    ensures e.TickN(dt, n).state == Sustain && e.TickN(dt, n).level == e.sustain
    decreases n
  {
    var step := e.DecayStep(dt);
    assert Max(e.decay, MinTime) > 0.0;
    DecayStepNonNegative(e, dt);
    var t := e.Tick(dt);
    if t.state == Sustain {
      HeldStagesStay(t, dt, n - 1);
    } else {
      assert t.level == e.level - step > e.sustain;
      assert step > 0.0;
      assert (n - 1) as real * step == n as real * step - step;
      assert (n - 1) as real * step > 0.0;
      TickPreservesWf(e, dt);
      DecaySettlesAtSustain(t, dt, n - 1);
    }
  }

  /** An attacking envelope has left Attack after `n` ticks once `n` attack
      steps cover the distance to the peak. */
  lemma {:induction false} AttackEnds(e: PerVoiceAdsr, dt: real, n: nat)
    requires e.state == Attack && dt > 0.0
    requires n >= 1 && e.level + n as real * e.AttackStep(dt) >= 1.0
    ensures e.TickN(dt, n).state != Attack
    decreases n
  {
    var step := e.AttackStep(dt);
    assert Max(e.attack, MinTime) > 0.0;
    assert step > 0.0;
    var t := e.Tick(dt);
    if t.state == Decay {
      TickNMonotone(t, dt, n - 1);
    } else {
      assert t.level == e.level + step < 1.0;
      assert (n - 1) as real * step == n as real * step - step;
      assert (n - 1) as real * step > 0.0;
      AttackEnds(t, dt, n - 1);
    }
  }
}
