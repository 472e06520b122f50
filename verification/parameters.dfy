/** The engine's named parameters: the closed name table of
    `Synthesizer::set_parameter` (with `ModMatrix::set_by_name` for the
    `mod_*` names) and the numeric keys `Synthesizer::import_preset` reads.
    Both act on `Params`, the snapshot of every field they can write. */
module Parameters {
  import opened Numeric
  import opened Waveforms
  import opened Envelope
  import opened Dsp

  /** Every engine field a parameter name can reach. */
  datatype Params = Params(
    osc0: OscSettings, osc1: OscSettings,
    env: AdsrParams,
    cutoff: real, resonance: real, filterEnv: bool,
    lfo0Rate: real, lfo0Amount: real, lfo1Rate: real, lfo1Amount: real,
    lfo0Retrigger: bool,
    delayTime: real, delayFeedback: real, delayWet: real, reverbWet: real,
    masterGain: real,
    mods: ModMatrix)

  /** The domain each clamped parameter is kept in. */
  ghost predicate InDomain(p: Params)
  {
    && p.env.InDomain()
    && p.cutoff >= 20.0 && p.resonance >= 0.0
    && p.lfo0Rate >= 0.0 && p.lfo1Rate >= 0.0
    && 0.0 <= p.delayTime <= 5.0
    && 0.0 <= p.delayFeedback <= 0.99
    && 0.0 <= p.delayWet <= 1.0 && 0.0 <= p.reverbWet <= 1.0
  }

  /** `name.starts_with("mod_")`. */
  predicate IsModName(name: string)
  {
    |name| >= 4 && name[0] == 'm' && name[1] == 'o' && name[2] == 'd' && name[3] == '_'
  }

  /** The names `set_parameter` matches before falling back to `mod_*`. */
  const FieldNames: set<string> := {
    "osc0_waveform", "osc1_waveform", "osc0_gain", "osc0_volume", "osc1_gain", "osc1_volume",
    "osc0_detune", "osc1_detune", "osc0_sync", "osc1_sync",
    "env_attack", "env_decay", "env_sustain", "env_release",
    "filter_cutoff", "filter_resonance", "filter_env",
    "lfo0_rate", "lfo0_amount", "lfo1_rate", "lfo1_amount", "lfo0_retrigger",
    "fx_delay_time", "fx_delay_feedback", "fx_delay_wet", "fx_reverb_wet",
    "master_gain"}

  /** The closed identifier set behind the parameter names: one tag per
      match arm of `set_parameter`, a `mod_*` name carried to the matrix,
      and `Unrecognised` for the fall-through arm. */
  datatype ParamId =
    | Osc0Waveform | Osc1Waveform | Osc0Gain | Osc1Gain | Osc0Detune | Osc1Detune | OscSync
    | EnvAttack | EnvDecay | EnvSustain | EnvRelease
    | FilterCutoff | FilterResonance | FilterEnv
    | Lfo0Rate | Lfo0Amount | Lfo1Rate | Lfo1Amount | Lfo0Retrigger
    | DelayTime | DelayFeedback | DelayWet | ReverbWet
    | MasterGain
    | ModRoute(route: string)
    | Unrecognised

  /** The name table of `set_parameter`. The `mod_*` test comes first here;
      no other name starts with `mod_` (`FieldNamesAreNotModNames`), so the
      order does not change which arm a name selects. Exactly the `mod_*`
      names go to the matrix, carrying the whole name. */
  function ParseName(name: string): (id: ParamId)
    ensures id.ModRoute? <==> IsModName(name)
    ensures id.ModRoute? ==> id.route == name
  {
    if IsModName(name) then ModRoute(name)
    else if name == "osc0_waveform" then Osc0Waveform
    else if name == "osc1_waveform" then Osc1Waveform
    else if name == "osc0_gain" || name == "osc0_volume" then Osc0Gain
    else if name == "osc1_gain" || name == "osc1_volume" then Osc1Gain
    else if name == "osc0_detune" then Osc0Detune
    else if name == "osc1_detune" then Osc1Detune
    else if name == "osc0_sync" || name == "osc1_sync" then OscSync
    else if name == "env_attack" then EnvAttack
    else if name == "env_decay" then EnvDecay
    else if name == "env_sustain" then EnvSustain
    else if name == "env_release" then EnvRelease
    else if name == "filter_cutoff" then FilterCutoff
    else if name == "filter_resonance" then FilterResonance
    else if name == "filter_env" then FilterEnv
    else if name == "lfo0_rate" then Lfo0Rate
    else if name == "lfo0_amount" then Lfo0Amount
    else if name == "lfo1_rate" then Lfo1Rate
    else if name == "lfo1_amount" then Lfo1Amount
    else if name == "lfo0_retrigger" then Lfo0Retrigger
    else if name == "fx_delay_time" then DelayTime
    else if name == "fx_delay_feedback" then DelayFeedback
    else if name == "fx_delay_wet" then DelayWet
    else if name == "fx_reverb_wet" then ReverbWet
    else if name == "master_gain" then MasterGain
    else Unrecognised
  }

  /** No fixed parameter name starts with `mod_`. */
  lemma FieldNamesAreNotModNames(name: string)
    requires name in FieldNames
    ensures !IsModName(name)
  {
  }

  /** A name outside the table and without the `mod_` prefix is unrecognised,
      and every name in the table is recognised. */
  lemma ParseNameRecognises(name: string)
    ensures ParseName(name) == Unrecognised <==> name !in FieldNames && !IsModName(name)
  {
    if name in FieldNames {
      FieldNamesAreNotModNames(name);
    }
  }

  /** One match arm of `set_parameter`: the field the identifier names is
      written through that field's clamp. The sync placeholders and an
      unrecognised name change nothing; only a route identifier reaches the
      modulation matrix, and it reaches nothing else. */
  function Apply(p: Params, id: ParamId, value: real): (r: Params)
    ensures id == OscSync || id == Unrecognised ==> r == p
    ensures !id.ModRoute? ==> r.mods == p.mods
    ensures id.ModRoute? ==> r.(mods := p.mods) == p
  {
    match id
    case Osc0Waveform => p.(osc0 := p.osc0.(waveform := FromReal(value)))
    case Osc1Waveform => p.(osc1 := p.osc1.(waveform := FromReal(value)))
    case Osc0Gain => p.(osc0 := p.osc0.(gain := value))
    case Osc1Gain => p.(osc1 := p.osc1.(gain := value))
    case Osc0Detune => p.(osc0 := p.osc0.(detuneCents := value))
    case Osc1Detune => p.(osc1 := p.osc1.(detuneCents := value))
    case OscSync => p
    case EnvAttack => p.(env := p.env.(attack := Max(value, 0.0001)))
    case EnvDecay => p.(env := p.env.(decay := Max(value, 0.0001)))
    case EnvSustain => p.(env := p.env.(sustain := Clamp(value, 0.0, 1.0)))
    case EnvRelease => p.(env := p.env.(release := Max(value, 0.0001)))
    case FilterCutoff => p.(cutoff := Max(value, 20.0))
    case FilterResonance => p.(resonance := Max(value, 0.0))
    case FilterEnv => p.(filterEnv := value > 0.5)
    case Lfo0Rate => p.(lfo0Rate := Max(value, 0.0))
    case Lfo0Amount => p.(lfo0Amount := value)
    case Lfo1Rate => p.(lfo1Rate := Max(value, 0.0))
    case Lfo1Amount => p.(lfo1Amount := value)
    case Lfo0Retrigger => p.(lfo0Retrigger := value > 0.5)
    case DelayTime => p.(delayTime := Clamp(Max(value, 0.0), 0.0, 5.0))
    case DelayFeedback => p.(delayFeedback := Clamp(value, 0.0, 0.99))
    case DelayWet => p.(delayWet := Clamp(value, 0.0, 1.0))
    case ReverbWet => p.(reverbWet := Clamp(value, 0.0, 1.0))
    case MasterGain => p.(masterGain := value)
    case ModRoute(name) => p.(mods := p.mods.SetByName(name, value))
    case Unrecognised => p
  }

  /** `Synthesizer::set_parameter` on the parameter fields. The `_volume`
      names are aliases of the `_gain` names, and a `mod_*` name is handed
      to `ModMatrix::set_by_name` (see `UnknownNameIsNoOp` for the names
      outside the table). */
  function ApplyParameter(p: Params, name: string, value: real): (r: Params)
    ensures name == "osc0_gain" || name == "osc0_volume" ==> r == p.(osc0 := p.osc0.(gain := value))
    ensures name == "osc1_gain" || name == "osc1_volume" ==> r == p.(osc1 := p.osc1.(gain := value))
    ensures IsModName(name) ==> r == p.(mods := p.mods.SetByName(name, value))
  {
    Apply(p, ParseName(name), value)
  }

  /** Whatever the name and value, `set_parameter` keeps every clamped
      field in its domain. */
  lemma SetParameterKeepsDomain(p: Params, name: string, value: real)
    requires InDomain(p)
    ensures InDomain(ApplyParameter(p, name, value))
  {
    ApplyKeepsDomain(p, ParseName(name), value);
  }

  /** Every match arm keeps every clamped field in its domain. */
  lemma ApplyKeepsDomain(p: Params, id: ParamId, value: real)
    requires InDomain(p)
    ensures InDomain(Apply(p, id, value))
  {
  }

  /** The clamps of `set_parameter`: the field a clamped parameter writes
      lands in its domain whatever the previous state and the value. */
  lemma SetParameterClamps(p: Params, id: ParamId, value: real)
    ensures var r := Apply(p, id, value);
      && (id == EnvAttack ==> r.env.attack >= 0.0001)
      && (id == EnvDecay ==> r.env.decay >= 0.0001)
      && (id == EnvRelease ==> r.env.release >= 0.0001)
      && (id == EnvSustain ==> 0.0 <= r.env.sustain <= 1.0)
      && (id == FilterCutoff ==> r.cutoff >= 20.0)
      && (id == FilterResonance ==> r.resonance >= 0.0)
      && (id == Lfo0Rate ==> r.lfo0Rate >= 0.0)
      && (id == Lfo1Rate ==> r.lfo1Rate >= 0.0)
      && (id == DelayTime ==> 0.0 <= r.delayTime <= 5.0)
      && (id == DelayFeedback ==> 0.0 <= r.delayFeedback <= 0.99)
      && (id == DelayWet ==> 0.0 <= r.delayWet <= 1.0)
      && (id == ReverbWet ==> 0.0 <= r.reverbWet <= 1.0)
  {
  }

  /** The clamps only move out-of-domain values: a value already in the
      domain is stored as given. */
  lemma SetParameterStoresInDomainValues(p: Params, id: ParamId, value: real)
    ensures var r := Apply(p, id, value);
      && (id == EnvAttack && value >= 0.0001 ==> r.env.attack == value)
      && (id == EnvDecay && value >= 0.0001 ==> r.env.decay == value)
      && (id == EnvSustain && 0.0 <= value <= 1.0 ==> r.env.sustain == value)
      && (id == EnvRelease && value >= 0.0001 ==> r.env.release == value)
      && (id == FilterCutoff && value >= 20.0 ==> r.cutoff == value)
      && (id == FilterResonance && value >= 0.0 ==> r.resonance == value)
      && (id == Lfo0Rate && value >= 0.0 ==> r.lfo0Rate == value)
      && (id == Lfo1Rate && value >= 0.0 ==> r.lfo1Rate == value)
      && (id == DelayTime && 0.0 <= value <= 5.0 ==> r.delayTime == value)
      && (id == DelayFeedback && 0.0 <= value <= 0.99 ==> r.delayFeedback == value)
      && (id == DelayWet && 0.0 <= value <= 1.0 ==> r.delayWet == value)
      && (id == ReverbWet && 0.0 <= value <= 1.0 ==> r.reverbWet == value)
  {
  }

  /** The fields without a clamp store any value as given. */
  lemma SetParameterStoresUnclampedValues(p: Params, id: ParamId, value: real)
    ensures var r := Apply(p, id, value);
      && (id == MasterGain ==> r.masterGain == value)
      && (id == Osc0Gain ==> r.osc0.gain == value)
      && (id == Osc1Gain ==> r.osc1.gain == value)
      && (id == Osc0Detune ==> r.osc0.detuneCents == value)
      && (id == Osc1Detune ==> r.osc1.detuneCents == value)
      && (id == Lfo0Amount ==> r.lfo0Amount == value)
      && (id == Lfo1Amount ==> r.lfo1Amount == value)
  {
  }

  /** An unrecognised name, including an unknown `mod_*` name, and the
      placeholder sync names change nothing. */
  lemma UnknownNameIsNoOp(p: Params, name: string, value: real)
    requires (name !in FieldNames && name !in ModNames) || name in {"osc0_sync", "osc1_sync"}
    ensures ApplyParameter(p, name, value) == p
  {
    if name in {"osc0_sync", "osc1_sync"} {
      assert !IsModName(name);
    } else if IsModName(name) {
      assert p.mods.SetByName(name, value) == p.mods;
    } else {
      ParseNameRecognises(name);
    }
  }

  /** A `mod_*` name reaches exactly the named route of the matrix and
      nothing else. */
  lemma ModNameSetsRoute(p: Params, name: string, value: real)
    requires name in ModNames
    ensures var r := ApplyParameter(p, name, value);
      && r.mods.Get(name) == value
      && (forall n | n in ModNames && n != name :: r.mods.Get(n) == p.mods.Get(n))
      && r.(mods := p.mods) == p
  {
    assert IsModName(name);
  }

  /** The numeric keys `import_preset` reads. */
  const PresetKeys: set<string> := {
    "master_gain", "osc0_waveform", "osc0_gain", "osc0_detune", "osc1_waveform", "osc1_gain",
    "osc1_detune", "env_attack", "env_decay", "env_sustain", "env_release",
    "filter_cutoff", "filter_resonance"}

  /** `obj[key]` if present, else `current` (`get_into(...).map(...)`). */
  function Lookup(obj: map<string, real>, key: string, current: real): real
  {
    if key in obj then obj[key] else current
  }

  /** An oscillator's settings after import reads its three keys. */
  function PresetOsc(o: OscSettings, obj: map<string, real>, waveKey: string, gainKey: string, detuneKey: string): (r: OscSettings)
    ensures waveKey in obj ==> r.waveform == FromReal(obj[waveKey])
    ensures gainKey in obj ==> r.gain == obj[gainKey]
    ensures detuneKey in obj ==> r.detuneCents == obj[detuneKey]
  {
    OscSettings(
      if waveKey in obj then FromReal(obj[waveKey]) else o.waveform,
      Lookup(obj, detuneKey, o.detuneCents),
      Lookup(obj, gainKey, o.gain))
  }

  /** The envelope defaults after import reads the four `env_*` keys. */
  function PresetEnv(e: AdsrParams, obj: map<string, real>): (r: AdsrParams)
    ensures "env_attack" in obj ==> r.attack == Max(obj["env_attack"], 0.0001)
    ensures "env_decay" in obj ==> r.decay == Max(obj["env_decay"], 0.0001)
    ensures "env_sustain" in obj ==> r.sustain == Clamp(obj["env_sustain"], 0.0, 1.0)
    ensures "env_release" in obj ==> r.release == Max(obj["env_release"], 0.0001)
  {
    AdsrParams(
      if "env_attack" in obj then Max(obj["env_attack"], 0.0001) else e.attack,
      if "env_decay" in obj then Max(obj["env_decay"], 0.0001) else e.decay,
      if "env_sustain" in obj then Clamp(obj["env_sustain"], 0.0, 1.0) else e.sustain,
      if "env_release" in obj then Max(obj["env_release"], 0.0001) else e.release)
  }

  /** The numeric part of `Synthesizer::import_preset`: each key that is
      present (and a number) is written through the same clamp
      `set_parameter` uses; a missing key leaves its field alone. `obj` holds
      the numeric members of the parsed object. Import has no key for the
      modulation routes (which export writes), the LFOs, the filter-envelope
      switch or the effect settings, so those keep their values. */
  function ApplyPreset(p: Params, obj: map<string, real>): (r: Params)
    ensures r.mods == p.mods && r.filterEnv == p.filterEnv
    ensures r.lfo0Rate == p.lfo0Rate && r.lfo0Amount == p.lfo0Amount
    ensures r.lfo1Rate == p.lfo1Rate && r.lfo1Amount == p.lfo1Amount && r.lfo0Retrigger == p.lfo0Retrigger
    ensures r.delayTime == p.delayTime && r.delayFeedback == p.delayFeedback
    ensures r.delayWet == p.delayWet && r.reverbWet == p.reverbWet
  {
    p.(
      masterGain := Lookup(obj, "master_gain", p.masterGain),
      osc0 := PresetOsc(p.osc0, obj, "osc0_waveform", "osc0_gain", "osc0_detune"),
      osc1 := PresetOsc(p.osc1, obj, "osc1_waveform", "osc1_gain", "osc1_detune"),
      env := PresetEnv(p.env, obj),
      cutoff := if "filter_cutoff" in obj then Max(obj["filter_cutoff"], 20.0) else p.cutoff,
      resonance := if "filter_resonance" in obj then Max(obj["filter_resonance"], 0.0) else p.resonance)
  }

  /** An object with none of the preset keys changes nothing. */
  lemma PresetWithoutKeysIsNoOp(p: Params, obj: map<string, real>)
    requires forall key | key in PresetKeys :: key !in obj
    ensures ApplyPreset(p, obj) == p
  {
  }

  /** Importing keeps every clamped field in its domain. */
  lemma PresetKeepsDomain(p: Params, obj: map<string, real>)
    requires InDomain(p)
    ensures InDomain(ApplyPreset(p, obj))
  {
  }

  /** A preset holding only the master gain does what `set_parameter` does with that name and value. */
  lemma PresetMasterGainAgreesWithSetParameter(p: Params, value: real)
    ensures ApplyPreset(p, map["master_gain" := value]) == ApplyParameter(p, "master_gain", value)
  {
    assert ApplyPreset(p, map["master_gain" := value]) == p.(masterGain := value);
    assert ApplyParameter(p, "master_gain", value) == Apply(p, MasterGain, value);
  }

  /** A preset holding only the first oscillator's waveform converts the number to a waveform as `set_parameter` does. */
  lemma PresetOsc0WaveformAgreesWithSetParameter(p: Params, value: real)
    ensures ApplyPreset(p, map["osc0_waveform" := value]) == ApplyParameter(p, "osc0_waveform", value)
  {
    assert ApplyPreset(p, map["osc0_waveform" := value]) == p.(osc0 := p.osc0.(waveform := FromReal(value)));
    assert ApplyParameter(p, "osc0_waveform", value) == Apply(p, Osc0Waveform, value);
  }

  /** A preset holding only the first oscillator's gain does what `set_parameter` does with that name and value. */
  lemma PresetOsc0GainAgreesWithSetParameter(p: Params, value: real)
    ensures ApplyPreset(p, map["osc0_gain" := value]) == ApplyParameter(p, "osc0_gain", value)
  {
    assert ApplyPreset(p, map["osc0_gain" := value]) == p.(osc0 := p.osc0.(gain := value));
    assert ApplyParameter(p, "osc0_gain", value) == Apply(p, Osc0Gain, value);
  }

  /** A preset holding only the first oscillator's detune does what `set_parameter` does with that name and value. */
  lemma PresetOsc0DetuneAgreesWithSetParameter(p: Params, value: real)
    ensures ApplyPreset(p, map["osc0_detune" := value]) == ApplyParameter(p, "osc0_detune", value)
  {
    assert ApplyPreset(p, map["osc0_detune" := value]) == p.(osc0 := p.osc0.(detuneCents := value));
    assert ApplyParameter(p, "osc0_detune", value) == Apply(p, Osc0Detune, value);
  }

  /** A preset holding only the second oscillator's waveform converts the number to a waveform as `set_parameter` does. */
  lemma PresetOsc1WaveformAgreesWithSetParameter(p: Params, value: real)
    ensures ApplyPreset(p, map["osc1_waveform" := value]) == ApplyParameter(p, "osc1_waveform", value)
  {
    assert ApplyPreset(p, map["osc1_waveform" := value]) == p.(osc1 := p.osc1.(waveform := FromReal(value)));
    assert ApplyParameter(p, "osc1_waveform", value) == Apply(p, Osc1Waveform, value);
  }

  /** A preset holding only the second oscillator's gain does what `set_parameter` does with that name and value. */
  lemma PresetOsc1GainAgreesWithSetParameter(p: Params, value: real)
    ensures ApplyPreset(p, map["osc1_gain" := value]) == ApplyParameter(p, "osc1_gain", value)
  {
    assert ApplyPreset(p, map["osc1_gain" := value]) == p.(osc1 := p.osc1.(gain := value));
    assert ApplyParameter(p, "osc1_gain", value) == Apply(p, Osc1Gain, value);
  }

  /** A preset holding only the second oscillator's detune does what `set_parameter` does with that name and value. */
  lemma PresetOsc1DetuneAgreesWithSetParameter(p: Params, value: real)
    ensures ApplyPreset(p, map["osc1_detune" := value]) == ApplyParameter(p, "osc1_detune", value)
  {
    assert ApplyPreset(p, map["osc1_detune" := value]) == p.(osc1 := p.osc1.(detuneCents := value));
    assert ApplyParameter(p, "osc1_detune", value) == Apply(p, Osc1Detune, value);
  }

  /** A preset holding only the attack time applies the same floor as `set_parameter`. */
  lemma PresetEnvAttackAgreesWithSetParameter(p: Params, value: real)
    ensures ApplyPreset(p, map["env_attack" := value]) == ApplyParameter(p, "env_attack", value)
  {
    assert ApplyPreset(p, map["env_attack" := value]) == p.(env := p.env.(attack := Max(value, 0.0001)));
    assert ApplyParameter(p, "env_attack", value) == Apply(p, EnvAttack, value);
  }

  /** A preset holding only the decay time applies the same floor as `set_parameter`. */
  lemma PresetEnvDecayAgreesWithSetParameter(p: Params, value: real)
    ensures ApplyPreset(p, map["env_decay" := value]) == ApplyParameter(p, "env_decay", value)
  {
    assert ApplyPreset(p, map["env_decay" := value]) == p.(env := p.env.(decay := Max(value, 0.0001)));
    assert ApplyParameter(p, "env_decay", value) == Apply(p, EnvDecay, value);
  }

  /** A preset holding only the sustain level applies the same clamp as `set_parameter`. */
  lemma PresetEnvSustainAgreesWithSetParameter(p: Params, value: real)
    ensures ApplyPreset(p, map["env_sustain" := value]) == ApplyParameter(p, "env_sustain", value)
  {
    assert ApplyPreset(p, map["env_sustain" := value]) == p.(env := p.env.(sustain := Clamp(value, 0.0, 1.0)));
    assert ApplyParameter(p, "env_sustain", value) == Apply(p, EnvSustain, value);
  }

  /** A preset holding only the release time applies the same floor as `set_parameter`. */
  lemma PresetEnvReleaseAgreesWithSetParameter(p: Params, value: real)
    ensures ApplyPreset(p, map["env_release" := value]) == ApplyParameter(p, "env_release", value)
  {
    assert ApplyPreset(p, map["env_release" := value]) == p.(env := p.env.(release := Max(value, 0.0001)));
    assert ApplyParameter(p, "env_release", value) == Apply(p, EnvRelease, value);
  }

  /** A preset holding only the filter cutoff applies the same floor as `set_parameter`. */
  lemma PresetFilterCutoffAgreesWithSetParameter(p: Params, value: real)
    ensures ApplyPreset(p, map["filter_cutoff" := value]) == ApplyParameter(p, "filter_cutoff", value)
  {
    assert ApplyPreset(p, map["filter_cutoff" := value]) == p.(cutoff := Max(value, 20.0));
    assert ApplyParameter(p, "filter_cutoff", value) == Apply(p, FilterCutoff, value);
  }

  /** A preset holding only the filter resonance applies the same floor as `set_parameter`. */
  lemma PresetFilterResonanceAgreesWithSetParameter(p: Params, value: real)
    ensures ApplyPreset(p, map["filter_resonance" := value]) == ApplyParameter(p, "filter_resonance", value)
  {
    assert ApplyPreset(p, map["filter_resonance" := value]) == p.(resonance := Max(value, 0.0));
    assert ApplyParameter(p, "filter_resonance", value) == Apply(p, FilterResonance, value);
  }

  /** Whatever else the object holds, the master gain or a key of the
      first oscillator that is present sets its field as the
      `set_parameter` arm of the same name does. */
  lemma PresetOsc0KeysActLikeArms(p: Params, obj: map<string, real>)
    ensures var r := ApplyPreset(p, obj);
      && ("master_gain" in obj ==> r.masterGain == Apply(p, MasterGain, obj["master_gain"]).masterGain)
      && ("osc0_waveform" in obj ==> r.osc0.waveform == Apply(p, Osc0Waveform, obj["osc0_waveform"]).osc0.waveform)
      && ("osc0_gain" in obj ==> r.osc0.gain == Apply(p, Osc0Gain, obj["osc0_gain"]).osc0.gain)
      && ("osc0_detune" in obj ==> r.osc0.detuneCents == Apply(p, Osc0Detune, obj["osc0_detune"]).osc0.detuneCents)
  {
  }

  /** Whatever else the object holds, each key of the second oscillator
      that is present sets its field as the `set_parameter` arm of the
      same name does. */
  lemma PresetOsc1KeysActLikeArms(p: Params, obj: map<string, real>)
    ensures var r := ApplyPreset(p, obj);
      && ("osc1_waveform" in obj ==> r.osc1.waveform == Apply(p, Osc1Waveform, obj["osc1_waveform"]).osc1.waveform)
      && ("osc1_gain" in obj ==> r.osc1.gain == Apply(p, Osc1Gain, obj["osc1_gain"]).osc1.gain)
      && ("osc1_detune" in obj ==> r.osc1.detuneCents == Apply(p, Osc1Detune, obj["osc1_detune"]).osc1.detuneCents)
  {
  }

  /** Whatever else the object holds, each envelope or filter key that is
      present sets its field through the clamp of the `set_parameter` arm of
      the same name. */
  lemma PresetEnvFilterKeysActLikeArms(p: Params, obj: map<string, real>)
    ensures var r := ApplyPreset(p, obj);
      && ("env_attack" in obj ==> r.env.attack == Apply(p, EnvAttack, obj["env_attack"]).env.attack)
      && ("env_decay" in obj ==> r.env.decay == Apply(p, EnvDecay, obj["env_decay"]).env.decay)
      && ("env_sustain" in obj ==> r.env.sustain == Apply(p, EnvSustain, obj["env_sustain"]).env.sustain)
      && ("env_release" in obj ==> r.env.release == Apply(p, EnvRelease, obj["env_release"]).env.release)
      && ("filter_cutoff" in obj ==> r.cutoff == Apply(p, FilterCutoff, obj["filter_cutoff"]).cutoff)
      && ("filter_resonance" in obj ==> r.resonance == Apply(p, FilterResonance, obj["filter_resonance"]).resonance)
  {
  }
}
