/** The older sound hook: the same four tones with a different preset table,
    an in-memory on/off flag that is never persisted, and no resume of a
    suspended context. */
module SoundEffects {
  import opened Audio
  import SoundContext

  /** The hook's four tones. */
  function EffectsPreset(t: SoundType): Preset
  {
    match t
    case Click => Preset([Step(800.0, 0.0), Ramp(600.0, 0.05)], 0.08, 0.001, 0.08, Sine, 0.08)
    case Hover => Preset([Step(1200.0, 0.0), Ramp(1400.0, 0.03)], 0.03, 0.001, 0.04, Sine, 0.04)
    case Success =>
      Preset([Step(523.25, 0.0), Step(659.25, 0.1), Step(783.99, 0.2)], 0.1, 0.001, 0.4, Sine, 0.4)
    case Toggle => Preset([Step(600.0, 0.0), Ramp(900.0, 0.06)], 0.05, 0.001, 0.08, Triangle, 0.08)
  }

  /** The message the hook writes to the console when audio is unavailable. */
  const AudioUnavailable: string := "Audio not available"

  lemma EffectsPresetsOk(t: SoundType)
    ensures PresetOk(EffectsPreset(t))
  {
  }

  /** Each tone's stop time, which is also the end of its gain ramp, its
      waveform and its gain floor. */
  lemma EffectsPresetLifetimes(t: SoundType)
    ensures EffectsPreset(t).stopAfter == EffectsPreset(t).gainRampEnd
    ensures EffectsPreset(t).floorGain == 0.001
    ensures EffectsPreset(t).stopAfter == match t
      case Click => 0.08 case Hover => 0.04 case Success => 0.4 case Toggle => 0.08
    ensures EffectsPreset(t).wave == if t == Toggle then Triangle else Sine
  {
  }

  /** Every playback of a hook tone is well formed; the hook never asks for a resume. */
  lemma EffectsPlaybackWellFormed(t: SoundType, now: real)
    ensures WellFormedTone(PlaybackCalls(false, EffectsPreset(t), now), now)
    ensures ResumeRequested !in PlaybackCalls(false, EffectsPreset(t), now)
  {
    EffectsPresetsOk(t);
    PlaybackWellFormed(false, EffectsPreset(t), now);
    PlaybackResumesFirst(false, EffectsPreset(t), now);
    assert PlaybackCalls(false, EffectsPreset(t), now) == [OscillatorCreated] + PlaybackCalls(false, EffectsPreset(t), now)[1..];
  }

  /** The success tone steps through the same three notes as the provider's,
      at offsets 0, 0.1 and 0.2, all before it stops at 0.4. */
  lemma EffectsSuccessArpeggio(now: real)
    ensures Collect(ToneCalls(EffectsPreset(Success), now), TimesOf(Frequency)) == [now, now + 0.1, now + 0.2]
    ensures Collect(ToneCalls(EffectsPreset(Success), now), StopTimes) == [now + 0.4]
    ensures FrequencyCalls(EffectsPreset(Success).frequency, now) ==
      [ SetValueAtTime(Frequency, 523.25, now),
        SetValueAtTime(Frequency, 659.25, now + 0.1),
        SetValueAtTime(Frequency, 783.99, now + 0.2) ]
  {
    var p := EffectsPreset(Success);
    FrequencyCallsThree(p.frequency[0], p.frequency[1], p.frequency[2], now);
    ToneCallsCollect(p, now, TimesOf(Frequency));
    GainAndLifetimeCollect(p, now, TimesOf(Frequency));
    FrequencyCallsTimes(p.frequency, now);
    var freq := Collect(ToneCalls(p, now), TimesOf(Frequency));
    assert freq[0] == now && freq[1] == now + 0.1 && freq[2] == now + 0.2;
    ToneLifetime(p, now);
  }

  /** The two tables are two variants: every tone is louder here than in the
      provider, so no tone has the same preset in both, although both play the
      same notes. */
  lemma TablesDiffer(t: SoundType)
    ensures EffectsPreset(t).peakGain > SoundContext.ContextPreset(t).peakGain
    ensures EffectsPreset(t) != SoundContext.ContextPreset(t)
    ensures forall i :: 0 <= i < |EffectsPreset(t).frequency| ==>
      i < |SoundContext.ContextPreset(t).frequency|
      && EffectsPreset(t).frequency[i].hz == SoundContext.ContextPreset(t).frequency[i].hz
  {
    assert EffectsPreset(t).peakGain != SoundContext.ContextPreset(t).peakGain;
  }

  /** The hook's state: the enabled flag, the lazily created context and the console. */
  class SoundEffects {
    var isEnabled: bool
    var audioContext: AudioContext?
    var consoleLog: seq<string>

    /** Sound starts enabled, whatever was chosen earlier. */
    constructor ()
      ensures isEnabled && audioContext == null && consoleLog == []
    {
      isEnabled, audioContext, consoleLog := true, null, [];
    }

    /** Returns the existing context, or creates it on first use; `null` stands
        for the constructor throwing because the browser has no audio support. */
    method GetAudioContext(supported: bool, initialState: ContextState) returns (ctx: AudioContext?)
      modifies this`audioContext
      ensures old(audioContext) != null ==> ctx == old(audioContext)
      ensures old(audioContext) == null && supported ==>
        ctx != null && fresh(ctx) && ctx.state == initialState && ctx.currentTime == 0.0 && ctx.calls == []
      ensures old(audioContext) == null && !supported ==> ctx == null
      ensures audioContext == ctx
    {
      if audioContext == null {
        if supported {
          audioContext := new AudioContext(initialState);
        }
      }
      ctx := audioContext;
    }

    /** Plays one tone: nothing when disabled; otherwise the node set-up and the
        tone on the (possibly new) context, without any resume request; when no
        context can be created the error is caught and logged. */
    method PlaySound(t: SoundType, supported: bool, initialState: ContextState)
      modifies this`audioContext, this`consoleLog, audioContext
      ensures isEnabled == old(isEnabled)
      ensures !old(isEnabled) ==> audioContext == old(audioContext) && consoleLog == old(consoleLog)
      ensures !old(isEnabled) && old(audioContext) != null ==> audioContext.calls == old(audioContext.calls)
      ensures old(isEnabled) && old(audioContext) != null ==>
        && audioContext == old(audioContext) && consoleLog == old(consoleLog)
        && audioContext.calls == old(audioContext.calls) +
             PlaybackCalls(false, EffectsPreset(t), old(audioContext.currentTime))
      ensures old(isEnabled) && old(audioContext) == null && supported ==>
        && audioContext != null && fresh(audioContext) && consoleLog == old(consoleLog)
        && audioContext.calls == PlaybackCalls(false, EffectsPreset(t), 0.0)
      ensures old(isEnabled) && old(audioContext) == null && !supported ==>
        audioContext == null && consoleLog == old(consoleLog) + [AudioUnavailable]
    {
      if !isEnabled {
        return;
      }
      var ctx := GetAudioContext(supported, initialState);
      if ctx == null {
        consoleLog := consoleLog + [AudioUnavailable];
        return;
      }
      PlayOn(ctx, t);
    }

    /** `toggleSounds(enabled)`: sets the flag to exactly `enabled`. */
    method ToggleSounds(enabled: bool)
      modifies this`isEnabled
      ensures isEnabled == enabled
    {
      isEnabled := enabled;
    }
  }

  /** The body of `playSound`'s `try` once a context exists. */
  method PlayOn(ctx: AudioContext, t: SoundType)
    modifies ctx`calls
    ensures ctx.calls == old(ctx.calls) + PlaybackCalls(false, EffectsPreset(t), ctx.currentTime)
  {
    ghost var before := ctx.calls;
    ctx.CreateOscillator();
    ctx.CreateGain();
    ctx.ConnectOscillatorToGain();
    ctx.ConnectGainToDestination();
    assert ctx.calls == before + NodeSetup();
    var now := ctx.currentTime;
    ScheduleEffectsTone(ctx, t, now);
    assert ctx.calls == before + (NodeSetup() + ToneCalls(EffectsPreset(t), now));
  }

  /** The `switch` of `playSound`. */
  method ScheduleEffectsTone(ctx: AudioContext, t: SoundType, now: real)
    modifies ctx`calls
    ensures ctx.calls == old(ctx.calls) + ToneCalls(EffectsPreset(t), now)
  {
    match t {
      case Click => ScheduleClick(ctx, now);
      case Hover => ScheduleHover(ctx, now);
      case Success => ScheduleSuccess(ctx, now);
      case Toggle => ScheduleToggle(ctx, now);
    }
  }

  /** `case 'click'`: 800 to 600 Hz over 0.05 s. */
  method ScheduleClick(ctx: AudioContext, now: real)
    modifies ctx`calls
    ensures ctx.calls == old(ctx.calls) + ToneCalls(EffectsPreset(Click), now)
  {
    var p := EffectsPreset(Click);
    ctx.SetValueAtTime(Frequency, 800.0, now);
    ctx.ExponentialRampToValueAtTime(Frequency, 600.0, now + 0.05);
    ctx.SetValueAtTime(Gain, 0.08, now);
    ctx.ExponentialRampToValueAtTime(Gain, 0.001, now + 0.08);
    ctx.SetType(Sine);
    ctx.Start(now);
    ctx.Stop(now + 0.08);
    FrequencyCallsTwo(p.frequency[0], p.frequency[1], now);
  }

  /** `case 'hover'`: 1200 to 1400 Hz over 0.03 s. */
  method ScheduleHover(ctx: AudioContext, now: real)
    modifies ctx`calls
    ensures ctx.calls == old(ctx.calls) + ToneCalls(EffectsPreset(Hover), now)
  {
    var p := EffectsPreset(Hover);
    ctx.SetValueAtTime(Frequency, 1200.0, now);
    ctx.ExponentialRampToValueAtTime(Frequency, 1400.0, now + 0.03);
    ctx.SetValueAtTime(Gain, 0.03, now);
    ctx.ExponentialRampToValueAtTime(Gain, 0.001, now + 0.04);
    ctx.SetType(Sine);
    ctx.Start(now);
    ctx.Stop(now + 0.04);
    FrequencyCallsTwo(p.frequency[0], p.frequency[1], now);
  }

  /** `case 'success'`: C5, E5, G5, a tenth of a second apart. */
  method ScheduleSuccess(ctx: AudioContext, now: real)
    modifies ctx`calls
    ensures ctx.calls == old(ctx.calls) + ToneCalls(EffectsPreset(Success), now)
  {
    var p := EffectsPreset(Success);
    ctx.SetValueAtTime(Frequency, 523.25, now);
    ctx.SetValueAtTime(Frequency, 659.25, now + 0.1);
    ctx.SetValueAtTime(Frequency, 783.99, now + 0.2);
    ctx.SetValueAtTime(Gain, 0.1, now);
    ctx.ExponentialRampToValueAtTime(Gain, 0.001, now + 0.4);
    ctx.SetType(Sine);
    ctx.Start(now);
    ctx.Stop(now + 0.4);
    FrequencyCallsThree(p.frequency[0], p.frequency[1], p.frequency[2], now);
  }

  /** `case 'toggle'`: a triangle-wave rise, 600 to 900 Hz. */
  method ScheduleToggle(ctx: AudioContext, now: real)
    modifies ctx`calls
    ensures ctx.calls == old(ctx.calls) + ToneCalls(EffectsPreset(Toggle), now)
  {
    var p := EffectsPreset(Toggle);
    ctx.SetValueAtTime(Frequency, 600.0, now);
    ctx.ExponentialRampToValueAtTime(Frequency, 900.0, now + 0.06);
    ctx.SetValueAtTime(Gain, 0.05, now);
    ctx.ExponentialRampToValueAtTime(Gain, 0.001, now + 0.08);
    ctx.SetType(Triangle);
    ctx.Start(now);
    ctx.Stop(now + 0.08);
    FrequencyCallsTwo(p.frequency[0], p.frequency[1], now);
  }
}
