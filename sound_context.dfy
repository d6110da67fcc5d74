/** The site-wide sound provider: a persisted on/off preference, one lazily
    created audio context, and four short synthesized tones. */
module SoundContext {
  import opened Prelude
  import opened Storage
  import opened Audio

  /** The storage key of the preference. */
  const SoundKey: string := "soundEnabled"

  /** The preference read at start-up: only the exact stored string "false"
      turns sound off; no stored value, "true" or anything else leaves it on. */
  function InitialSoundEnabled(saved: Option<string>): bool
  {
    saved != Some("false")
  }

  /** The four tones of the provider. */
  function ContextPreset(t: SoundType): Preset
  {
    match t
    case Click => Preset([Step(800.0, 0.0), Ramp(600.0, 0.05)], 0.06, 0.001, 0.08, Sine, 0.08)
    case Hover => Preset([Step(1200.0, 0.0), Ramp(1400.0, 0.02)], 0.02, 0.001, 0.03, Sine, 0.03)
    case Success =>
      Preset([Step(523.25, 0.0), Step(659.25, 0.08), Step(783.99, 0.16)], 0.08, 0.001, 0.3, Sine, 0.3)
    case Toggle => Preset([Step(600.0, 0.0), Ramp(900.0, 0.05)], 0.04, 0.001, 0.07, Triangle, 0.07)
  }

  /** The preference written by a toggle is read back unchanged at the next start-up. */
  lemma PreferenceRoundTrip(b: bool)
    ensures InitialSoundEnabled(Some(BoolToString(b))) == b
  {
  }

  /** Only the stored string "false" disables sound. */
  lemma OnlyFalseDisables(saved: Option<string>)
    ensures InitialSoundEnabled(None)
    ensures InitialSoundEnabled(Some("true"))
    ensures !InitialSoundEnabled(saved) <==> saved == Some("false")
  {
  }

  /** Every tone of the provider satisfies the conditions of a well-formed tone. */
  lemma ContextPresetsOk(t: SoundType)
    ensures PresetOk(ContextPreset(t))
  {
  }

  /** Each tone's stop time, which is also the end of its gain ramp, its
      waveform and its gain floor. */
  lemma ContextPresetLifetimes(t: SoundType)
    ensures ContextPreset(t).stopAfter == ContextPreset(t).gainRampEnd
    ensures ContextPreset(t).floorGain == 0.001
    ensures ContextPreset(t).stopAfter == match t
      case Click => 0.08 case Hover => 0.03 case Success => 0.3 case Toggle => 0.07
    ensures ContextPreset(t).wave == if t == Toggle then Triangle else Sine
  {
  }

  /** Every playback of a provider tone, with or without a resume request, is well formed. */
  lemma ContextPlaybackWellFormed(t: SoundType, resume: bool, now: real)
    ensures WellFormedTone(PlaybackCalls(resume, ContextPreset(t), now), now)
  {
    ContextPresetsOk(t);
    PlaybackWellFormed(resume, ContextPreset(t), now);
  }

  /** The success tone steps through three notes, at offsets 0, 0.08 and 0.16,
      all before it stops at 0.3. */
  lemma SuccessArpeggio(now: real)
    ensures Collect(ToneCalls(ContextPreset(Success), now), TimesOf(Frequency)) == [now, now + 0.08, now + 0.16]
    ensures Collect(ToneCalls(ContextPreset(Success), now), StopTimes) == [now + 0.3]
    ensures FrequencyCalls(ContextPreset(Success).frequency, now) ==
      [ SetValueAtTime(Frequency, 523.25, now),
        SetValueAtTime(Frequency, 659.25, now + 0.08),
        SetValueAtTime(Frequency, 783.99, now + 0.16) ]
  {
    var p := ContextPreset(Success);
    FrequencyCallsThree(p.frequency[0], p.frequency[1], p.frequency[2], now);
    ToneCallsCollect(p, now, TimesOf(Frequency));
    GainAndLifetimeCollect(p, now, TimesOf(Frequency));
    FrequencyCallsTimes(p.frequency, now);
    var freq := Collect(ToneCalls(p, now), TimesOf(Frequency));
    assert freq[0] == now && freq[1] == now + 0.08 && freq[2] == now + 0.16;
    ToneLifetime(p, now);
  }

  /** The provider's state: the preference and the audio context, created on first use. */
  class SoundProvider {
    var isSoundEnabled: bool
    var audioContext: AudioContext?

    /** Mounting reads the stored preference; no audio context exists yet. */
    constructor (storage: LocalStorage)
      ensures isSoundEnabled == InitialSoundEnabled(storage.GetItem(SoundKey))
      ensures audioContext == null
    {
      isSoundEnabled := InitialSoundEnabled(storage.GetItem(SoundKey));
      audioContext := null;
    }

    /** Returns the existing context, or creates it on first use. `supported`
        says whether the browser offers an `AudioContext` constructor (standard
        or prefixed) and `initialState` is the state a new context starts in.
        `null` stands for the constructor throwing. */
    method GetAudioContext(supported: bool, initialState: ContextState) returns (ctx: AudioContext?)
      modifies this`audioContext
      ensures old(audioContext) != null ==> ctx == old(audioContext)
      ensures old(audioContext) == null && supported ==>
        ctx != null && fresh(ctx) && ctx.state == initialState && ctx.currentTime == 0.0 && ctx.calls == []
      ensures old(audioContext) == null && !supported ==> ctx == null
      ensures audioContext == ctx
    {
      if audioContext == null {
        if supported {
          audioContext := new AudioContext(initialState);
        }
      }
      ctx := audioContext;
    }

    /** Plays one tone. When sound is off nothing happens and no context is
        created. Otherwise the context (existing or new) receives a resume
        request when it is suspended, the node set-up and the tone's calls,
        timed from its current time; a context that cannot be created is a
        caught exception and the call returns normally. */
    method PlaySound(t: SoundType, supported: bool, initialState: ContextState)
      modifies this`audioContext, audioContext
      ensures isSoundEnabled == old(isSoundEnabled)
      ensures !old(isSoundEnabled) ==> audioContext == old(audioContext)
      ensures !old(isSoundEnabled) && old(audioContext) != null ==>
        audioContext.calls == old(audioContext.calls)
      ensures old(isSoundEnabled) && old(audioContext) != null ==>
        && audioContext == old(audioContext)
        && audioContext.calls == old(audioContext.calls) +
             PlaybackCalls(old(audioContext.state) == Suspended, ContextPreset(t), old(audioContext.currentTime))
      ensures old(isSoundEnabled) && old(audioContext) == null && supported ==>
        && audioContext != null && fresh(audioContext)
        && audioContext.calls == PlaybackCalls(initialState == Suspended, ContextPreset(t), 0.0)
      ensures old(isSoundEnabled) && old(audioContext) == null && !supported ==> audioContext == null
    {
      PlaySoundFromRender(isSoundEnabled, t, supported, initialState);
    }

    /** `playSound` is a callback memoised on the preference: each render hands
        out one that checks the flag of that render, `enabledAtRender`, not the
        current one. `PlaySound` is the callback of the current render. */
    method PlaySoundFromRender(enabledAtRender: bool, t: SoundType, supported: bool, initialState: ContextState)
      modifies this`audioContext, audioContext
      ensures !enabledAtRender ==> audioContext == old(audioContext)
      ensures !enabledAtRender && old(audioContext) != null ==>
        audioContext.calls == old(audioContext.calls)
      ensures enabledAtRender && old(audioContext) != null ==>
        && audioContext == old(audioContext)
        && audioContext.calls == old(audioContext.calls) +
             PlaybackCalls(old(audioContext.state) == Suspended, ContextPreset(t), old(audioContext.currentTime))
      ensures enabledAtRender && old(audioContext) == null && supported ==>
        && audioContext != null && fresh(audioContext)
        && audioContext.calls == PlaybackCalls(initialState == Suspended, ContextPreset(t), 0.0)
      ensures enabledAtRender && old(audioContext) == null && !supported ==> audioContext == null
    {
      if !enabledAtRender {
        return;
      }
      var ctx := GetAudioContext(supported, initialState);
      if ctx == null {
        return;
      }
      PlayOn(ctx, t);
    }

    /** Flips the preference and persists the new value as "true" or "false". */
    method ToggleSound(storage: LocalStorage)
      modifies this`isSoundEnabled, storage
      ensures isSoundEnabled == !old(isSoundEnabled)
      ensures storage.items == old(storage.items)[SoundKey := BoolToString(isSoundEnabled)]
      ensures InitialSoundEnabled(storage.GetItem(SoundKey)) == isSoundEnabled
    {
      isSoundEnabled := !isSoundEnabled;
      storage.SetItem(SoundKey, BoolToString(isSoundEnabled));
      PreferenceRoundTrip(isSoundEnabled);
    }
  }

  /** The body of `playSound`'s `try` once a context exists: resume it when it
      is suspended, create and wire the nodes, read the clock and schedule the tone. */
  method PlayOn(ctx: AudioContext, t: SoundType)
    modifies ctx`calls
    ensures ctx.calls == old(ctx.calls) + PlaybackCalls(ctx.state == Suspended, ContextPreset(t), ctx.currentTime)
  {
    ghost var before := ctx.calls;
    var resume := ctx.state == Suspended;
    if resume {
    ctx.Resume();
    }
    ctx.CreateOscillator();
    ctx.CreateGain();
    ctx.ConnectOscillatorToGain();
    ctx.ConnectGainToDestination();
    ghost var prefix := (if resume then [ResumeRequested] else []) + NodeSetup();
    assert ctx.calls == before + prefix;
    var now := ctx.currentTime;
    ScheduleContextTone(ctx, t, now);
    assert ctx.calls == before + (prefix + ToneCalls(ContextPreset(t), now));
  }

  /** The `switch` of `playSound`: the calls of one tone on nodes that already exist. */
  method ScheduleContextTone(ctx: AudioContext, t: SoundType, now: real)
    modifies ctx`calls
    ensures ctx.calls == old(ctx.calls) + ToneCalls(ContextPreset(t), now)
  {
    match t {
      case Click => ScheduleClick(ctx, now);
      case Hover => ScheduleHover(ctx, now);
      case Success => ScheduleSuccess(ctx, now);
      case Toggle => ScheduleToggle(ctx, now);
    }
  }

  /** `case 'click'`: a falling chirp, 800 to 600 Hz. */
  method ScheduleClick(ctx: AudioContext, now: real)
    modifies ctx`calls
    ensures ctx.calls == old(ctx.calls) + ToneCalls(ContextPreset(Click), now)
  {
    var p := ContextPreset(Click);
    ctx.SetValueAtTime(Frequency, 800.0, now);
    ctx.ExponentialRampToValueAtTime(Frequency, 600.0, now + 0.05);
    ctx.SetValueAtTime(Gain, 0.06, now);
    ctx.ExponentialRampToValueAtTime(Gain, 0.001, now + 0.08);
    ctx.SetType(Sine);
    ctx.Start(now);
    ctx.Stop(now + 0.08);
    FrequencyCallsTwo(p.frequency[0], p.frequency[1], now);
  }

  /** `case 'hover'`: a faint rising blip, 1200 to 1400 Hz. */
  method ScheduleHover(ctx: AudioContext, now: real)
    modifies ctx`calls
    ensures ctx.calls == old(ctx.calls) + ToneCalls(ContextPreset(Hover), now)
  {
    var p := ContextPreset(Hover);
    ctx.SetValueAtTime(Frequency, 1200.0, now);
    ctx.ExponentialRampToValueAtTime(Frequency, 1400.0, now + 0.02);
    ctx.SetValueAtTime(Gain, 0.02, now);
    ctx.ExponentialRampToValueAtTime(Gain, 0.001, now + 0.03);
    ctx.SetType(Sine);
    ctx.Start(now);
    ctx.Stop(now + 0.03);
    FrequencyCallsTwo(p.frequency[0], p.frequency[1], now);
  }

  /** `case 'success'`: a C major arpeggio, C5, E5, G5. */
  method ScheduleSuccess(ctx: AudioContext, now: real)
    modifies ctx`calls
    ensures ctx.calls == old(ctx.calls) + ToneCalls(ContextPreset(Success), now)
  {
    var p := ContextPreset(Success);
    ctx.SetValueAtTime(Frequency, 523.25, now);
    ctx.SetValueAtTime(Frequency, 659.25, now + 0.08);
    ctx.SetValueAtTime(Frequency, 783.99, now + 0.16);
    ctx.SetValueAtTime(Gain, 0.08, now);
    ctx.ExponentialRampToValueAtTime(Gain, 0.001, now + 0.3);
    ctx.SetType(Sine);
    ctx.Start(now);
    ctx.Stop(now + 0.3);
    FrequencyCallsThree(p.frequency[0], p.frequency[1], p.frequency[2], now);
  }

  /** `case 'toggle'`: a triangle-wave rise, 600 to 900 Hz. */
  method ScheduleToggle(ctx: AudioContext, now: real)
    modifies ctx`calls
    ensures ctx.calls == old(ctx.calls) + ToneCalls(ContextPreset(Toggle), now)
  {
    var p := ContextPreset(Toggle);
    ctx.SetValueAtTime(Frequency, 600.0, now);
    ctx.ExponentialRampToValueAtTime(Frequency, 900.0, now + 0.05);
    ctx.SetValueAtTime(Gain, 0.04, now);
    ctx.ExponentialRampToValueAtTime(Gain, 0.001, now + 0.07);
    ctx.SetType(Triangle);
    ctx.Start(now);
    ctx.Stop(now + 0.07);
    FrequencyCallsTwo(p.frequency[0], p.frequency[1], now);
  }

  /** Toggling the preference and reloading the page: the reloaded provider
      starts with the toggled value. */
  method ReloadAfterToggle(saved: map<string, string>) returns (before: bool, after: bool)
    ensures before == InitialSoundEnabled(if SoundKey in saved then Some(saved[SoundKey]) else None)
    ensures after == !before
  {
    var storage := new LocalStorage(saved);
    var provider := new SoundProvider(storage);
    before := provider.isSoundEnabled;
    provider.ToggleSound(storage);
    var reloaded := new SoundProvider(storage);
    after := reloaded.isSoundEnabled;
  }
}
