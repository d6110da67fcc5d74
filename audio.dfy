/** The slice of the Web Audio API the two tone synthesizers use, seen as the
    ordered log of calls made on one audio context and the nodes it creates,
    and the specification of a tone as a preset: its frequency envelope, its
    gain envelope and its stop time. Times and values are exact rationals. */
module Audio {

  datatype SoundType = Click | Hover | Success | Toggle

  datatype Waveform = Sine | Triangle

  /** The two automated parameters: the oscillator's `frequency` and the gain node's `gain`. */
  datatype Param = Frequency | Gain

  datatype ContextState = Suspended | Running

  datatype AudioCall =
    | ResumeRequested
    | OscillatorCreated
    | GainCreated
    | OscillatorConnectedToGain
    | GainConnectedToDestination
    | SetValueAtTime(param: Param, value: real, time: real)
    | ExponentialRampToValueAtTime(param: Param, value: real, time: real)
    | TypeSet(wave: Waveform)
    | Started(time: real)
    | Stopped(time: real)

  /** An audio context: its state, its clock and every call made on it or its nodes. */
  class AudioContext {
    var state: ContextState
    var currentTime: real
    var calls: seq<AudioCall>

    constructor (initialState: ContextState)
      ensures state == initialState && currentTime == 0.0 && calls == []
    {
      state, currentTime, calls := initialState, 0.0, [];
    }

    /** `resume()` returns a promise; the state changes later, outside this model. */
    method Resume()
      modifies this`calls
      ensures calls == old(calls) + [ResumeRequested]
    {
      calls := calls + [ResumeRequested];
    }

    method CreateOscillator()
      modifies this`calls
      ensures calls == old(calls) + [OscillatorCreated]
    {
      calls := calls + [OscillatorCreated];
    }

    method CreateGain()
      modifies this`calls
      ensures calls == old(calls) + [GainCreated]
    {
      calls := calls + [GainCreated];
    }

    method ConnectOscillatorToGain()
      modifies this`calls
      ensures calls == old(calls) + [OscillatorConnectedToGain]
    {
      calls := calls + [OscillatorConnectedToGain];
    }

    method ConnectGainToDestination()
      modifies this`calls
      ensures calls == old(calls) + [GainConnectedToDestination]
    {
      calls := calls + [GainConnectedToDestination];
    }

    method SetValueAtTime(param: Param, value: real, time: real)
      modifies this`calls
      ensures calls == old(calls) + [AudioCall.SetValueAtTime(param, value, time)]
    {
      calls := calls + [AudioCall.SetValueAtTime(param, value, time)];
    }

    /** An exponential ramp towards 0 is a `RangeError` in the Web Audio API:
        the precondition makes every call site prove it never asks for one. */
    method ExponentialRampToValueAtTime(param: Param, value: real, time: real)
      requires value != 0.0
      modifies this`calls
      ensures calls == old(calls) + [AudioCall.ExponentialRampToValueAtTime(param, value, time)]
    {
      calls := calls + [AudioCall.ExponentialRampToValueAtTime(param, value, time)];
    }

    method SetType(wave: Waveform)
      modifies this`calls
      ensures calls == old(calls) + [TypeSet(wave)]
    {
      calls := calls + [TypeSet(wave)];
    }

    method Start(time: real)
      modifies this`calls
      ensures calls == old(calls) + [Started(time)]
    {
      calls := calls + [Started(time)];
    }

    method Stop(time: real)
      modifies this`calls
      ensures calls == old(calls) + [Stopped(time)]
    {
      calls := calls + [Stopped(time)];
    }
  }

  /** One breakpoint of a frequency envelope, at an offset from the tone's start:
      an immediate step (`setValueAtTime`) or the end of an exponential ramp. */
  datatype FrequencyPoint = Step(hz: real, offset: real) | Ramp(hz: real, offset: real)

  /** A named tone: its frequency breakpoints, its gain envelope (a peak at the
      start, an exponential ramp to a floor), its waveform and when it stops. */
  datatype Preset = Preset(
    frequency: seq<FrequencyPoint>,
    peakGain: real,
    floorGain: real,
    gainRampEnd: real,
    wave: Waveform,
    stopAfter: real)

  function FrequencyCall(point: FrequencyPoint, now: real): AudioCall
  {
    match point
    case Step(hz, offset) => SetValueAtTime(Frequency, hz, now + offset)
    case Ramp(hz, offset) => ExponentialRampToValueAtTime(Frequency, hz, now + offset)
  }

  function FrequencyCalls(points: seq<FrequencyPoint>, now: real): seq<AudioCall>
  {
    if points == [] then [] else [FrequencyCall(points[0], now)] + FrequencyCalls(points[1..], now)
  }

  lemma FrequencyCallsTwo(a: FrequencyPoint, b: FrequencyPoint, now: real)
    ensures FrequencyCalls([a, b], now) == [FrequencyCall(a, now), FrequencyCall(b, now)]
  {
    assert [a, b][1..] == [b];
    assert [b][1..] == [];
    assert FrequencyCalls([b], now) == [FrequencyCall(b, now)] + FrequencyCalls([], now);
  }

  lemma FrequencyCallsThree(a: FrequencyPoint, b: FrequencyPoint, c: FrequencyPoint, now: real)
    ensures FrequencyCalls([a, b, c], now) == [FrequencyCall(a, now), FrequencyCall(b, now), FrequencyCall(c, now)]
  {
    assert [a, b, c][1..] == [b, c];
    FrequencyCallsTwo(b, c, now);
  }

  /** The calls one tone makes once its nodes exist, from a start time `now`,
      in the order the synthesizers issue them. */
  function ToneCalls(p: Preset, now: real): seq<AudioCall>
  {
    FrequencyCalls(p.frequency, now) + GainAndLifetime(p, now)
  }

  /** The gain envelope, the waveform, and the oscillator's start and stop. */
  function GainAndLifetime(p: Preset, now: real): seq<AudioCall>
  {
    [ SetValueAtTime(Gain, p.peakGain, now),
      ExponentialRampToValueAtTime(Gain, p.floorGain, now + p.gainRampEnd),
      TypeSet(p.wave),
      Started(now),
      Stopped(now + p.stopAfter) ]
  }

  /** Creating an oscillator and a gain node and wiring oscillator -> gain -> output. */
  function NodeSetup(): seq<AudioCall>
  {
    [OscillatorCreated, GainCreated, OscillatorConnectedToGain, GainConnectedToDestination]
  }

  /** Everything one successful play appends to the context's log: an optional
      resume request, the node set-up, then the tone. */
  function PlaybackCalls(resume: bool, p: Preset, now: real): seq<AudioCall>
  {
    (if resume then [ResumeRequested] else []) + NodeSetup() + ToneCalls(p, now)
  }

  // ---- Reading a log back: which times and values it schedules ----

  datatype Selector =
    | TimesOf(param: Param)        // times of every automation event on the parameter
    | RampTimesOf(param: Param)    // end times of its exponential ramps
    | RampTargetsOf(param: Param)  // target values of its exponential ramps
    | StartTimes
    | StopTimes

  function Pick(sel: Selector, c: AudioCall): seq<real>
  {
    match sel
    case TimesOf(p) =>
      if (c.SetValueAtTime? || c.ExponentialRampToValueAtTime?) && c.param == p then [c.time] else []
    case RampTimesOf(p) => if c.ExponentialRampToValueAtTime? && c.param == p then [c.time] else []
    case RampTargetsOf(p) => if c.ExponentialRampToValueAtTime? && c.param == p then [c.value] else []
    case StartTimes => if c.Started? then [c.time] else []
    case StopTimes => if c.Stopped? then [c.time] else []
  }

  /** What `sel` picks out of a log, in log order. */
  function Collect(calls: seq<AudioCall>, sel: Selector): seq<real>
  {
    if calls == [] then [] else Collect(calls[..|calls| - 1], sel) + Pick(sel, calls[|calls| - 1])
  }

  predicate StrictlyIncreasing(ts: seq<real>)
  {
    forall i, j :: 0 <= i < j < |ts| ==> ts[i] < ts[j]
  }

  /** What a played tone must look like: started once at `now` and stopped once
      later; frequency events strictly increasing in time, the first at `now`,
      all before the stop; the gain set at `now` and ramped to a strictly
      positive floor that is reached exactly at the stop time; every exponential
      ramp aimed at a positive value. */
  predicate WellFormedTone(calls: seq<AudioCall>, now: real)
  {
    var freq := Collect(calls, TimesOf(Frequency));
    var stops := Collect(calls, StopTimes);
    && Collect(calls, StartTimes) == [now]
    && |stops| == 1 && now < stops[0]
    && |freq| > 0 && freq[0] == now && StrictlyIncreasing(freq) && freq[|freq| - 1] < stops[0]
    && Collect(calls, TimesOf(Gain)) == [now, stops[0]]
    && Collect(calls, RampTimesOf(Gain)) == [stops[0]]
    && (forall v :: v in Collect(calls, RampTargetsOf(Gain)) ==> v > 0.0)
    && (forall v :: v in Collect(calls, RampTargetsOf(Frequency)) ==> v > 0.0)
  }

  /** The conditions on a preset's constants under which its tone is well formed. */
  predicate PresetOk(p: Preset)
  {
    && |p.frequency| > 0
    && p.frequency[0].offset == 0.0
    && (forall i, j :: 0 <= i < j < |p.frequency| ==> p.frequency[i].offset < p.frequency[j].offset)
    && p.frequency[|p.frequency| - 1].offset < p.stopAfter
    && (forall i :: 0 <= i < |p.frequency| ==> p.frequency[i].hz > 0.0)
    && 0.0 < p.floorGain
    && p.gainRampEnd == p.stopAfter
    && 0.0 < p.stopAfter
  }

  /** Reading back a concatenation reads back each part. */
  lemma {:induction false} CollectAppend(a: seq<AudioCall>, b: seq<AudioCall>, sel: Selector)
    ensures Collect(a + b, sel) == Collect(a, sel) + Collect(b, sel)
    decreases |b|
  {
    if b == [] {
      assert a + b == a;
    } else {
      var init := b[..|b| - 1];
      assert (a + b)[..|a + b| - 1] == a + init;
      assert (a + b)[|a + b| - 1] == b[|b| - 1];
      CollectAppend(a, init, sel);
    }
  }

  lemma CollectOne(c: AudioCall, sel: Selector)
    ensures Collect([c], sel) == Pick(sel, c)
  {
    assert [c][..0] == [];
  }

  /** Reading back an envelope is reading back its first call, then the rest. */
  lemma FrequencyCallsUnfold(points: seq<FrequencyPoint>, now: real, sel: Selector)
    requires points != []
    ensures Collect(FrequencyCalls(points, now), sel)
         == Pick(sel, FrequencyCall(points[0], now)) + Collect(FrequencyCalls(points[1..], now), sel)
  {
    CollectAppend([FrequencyCall(points[0], now)], FrequencyCalls(points[1..], now), sel);
    CollectOne(FrequencyCall(points[0], now), sel);
  }

  /** A frequency envelope schedules one frequency event per breakpoint, at `now`
      plus the breakpoint's offset. */
  lemma {:induction false} FrequencyCallsTimes(points: seq<FrequencyPoint>, now: real)
    ensures |Collect(FrequencyCalls(points, now), TimesOf(Frequency))| == |points|
    ensures forall i :: 0 <= i < |points| ==>
      Collect(FrequencyCalls(points, now), TimesOf(Frequency))[i] == now + points[i].offset
  {
    if points != [] {
      FrequencyCallsTimes(points[1..], now);
      FrequencyCallsUnfold(points, now, TimesOf(Frequency));
    }
  }

  /** Its ramps aim at the breakpoints' frequencies, so at positive values when
      every breakpoint is positive. */
  lemma {:induction false} FrequencyCallsTargets(points: seq<FrequencyPoint>, now: real)
    requires forall i :: 0 <= i < |points| ==> points[i].hz > 0.0
    ensures forall v :: v in Collect(FrequencyCalls(points, now), RampTargetsOf(Frequency)) ==> v > 0.0
  {
    if points != [] {
      FrequencyCallsTargets(points[1..], now);
      FrequencyCallsUnfold(points, now, RampTargetsOf(Frequency));
    }
  }

  /** It touches neither the gain nor the oscillator's lifetime. */
  lemma {:induction false} FrequencyCallsElsewhere(points: seq<FrequencyPoint>, now: real, sel: Selector)
    requires sel.StartTimes? || sel.StopTimes? || sel.param == Gain
    ensures Collect(FrequencyCalls(points, now), sel) == []
  {
    if points != [] {
      FrequencyCallsElsewhere(points[1..], now, sel);
      FrequencyCallsUnfold(points, now, sel);
    }
  }

  /** Collecting from a five-call list is collecting from each call in turn. */
  lemma CollectFive(a: AudioCall, b: AudioCall, c: AudioCall, d: AudioCall, e: AudioCall, sel: Selector)
    ensures Collect([a, b, c, d, e], sel) == Pick(sel, a) + Pick(sel, b) + Pick(sel, c) + Pick(sel, d) + Pick(sel, e)
  {
    assert [a, b, c, d, e][..4] == [a, b, c, d];
    assert [a, b, c, d][..3] == [a, b, c];
    assert [a, b, c][..2] == [a, b];
    assert [a, b][..1] == [a];
    assert [a][..0] == [];
    assert Collect([a], sel) == Pick(sel, a);
    assert Collect([a, b], sel) == Pick(sel, a) + Pick(sel, b);
    assert Collect([a, b, c], sel) == Pick(sel, a) + Pick(sel, b) + Pick(sel, c);
    assert Collect([a, b, c, d], sel) == Pick(sel, a) + Pick(sel, b) + Pick(sel, c) + Pick(sel, d);
  }

  /** The gain envelope and the oscillator's lifetime, read back. */
  lemma GainAndLifetimeCollect(p: Preset, now: real, sel: Selector)
    ensures (sel.TimesOf? || sel.RampTimesOf? || sel.RampTargetsOf?) && sel.param == Frequency ==> Collect(GainAndLifetime(p, now), sel) == []
    ensures sel == TimesOf(Gain) ==> Collect(GainAndLifetime(p, now), sel) == [now, now + p.gainRampEnd]
    ensures sel == RampTimesOf(Gain) ==> Collect(GainAndLifetime(p, now), sel) == [now + p.gainRampEnd]
    ensures sel == RampTargetsOf(Gain) ==> Collect(GainAndLifetime(p, now), sel) == [p.floorGain]
    ensures sel == StartTimes ==> Collect(GainAndLifetime(p, now), sel) == [now]
    ensures sel == StopTimes ==> Collect(GainAndLifetime(p, now), sel) == [now + p.stopAfter]
  {
    CollectFive(SetValueAtTime(Gain, p.peakGain, now),
      ExponentialRampToValueAtTime(Gain, p.floorGain, now + p.gainRampEnd),
      TypeSet(p.wave), Started(now), Stopped(now + p.stopAfter), sel);
  }

  /** A tone read back is its envelope read back, then its gain and lifetime. */
  lemma ToneCallsCollect(p: Preset, now: real, sel: Selector)
    ensures Collect(ToneCalls(p, now), sel) == Collect(FrequencyCalls(p.frequency, now), sel) + Collect(GainAndLifetime(p, now), sel)
  {
    CollectAppend(FrequencyCalls(p.frequency, now), GainAndLifetime(p, now), sel);
  }

  /** The frequency events of a tone, read back. */
  lemma ToneFrequencyTimes(p: Preset, now: real)
    requires PresetOk(p)
    ensures var freq := Collect(ToneCalls(p, now), TimesOf(Frequency));
      && |freq| > 0 && freq[0] == now && StrictlyIncreasing(freq)
      && freq[|freq| - 1] < now + p.stopAfter
  {
    ToneCallsCollect(p, now, TimesOf(Frequency));
    FrequencyCallsTimes(p.frequency, now);
    GainAndLifetimeCollect(p, now, TimesOf(Frequency));
    var freq := Collect(ToneCalls(p, now), TimesOf(Frequency));
    assert freq == Collect(FrequencyCalls(p.frequency, now), TimesOf(Frequency));
    assert StrictlyIncreasing(freq) by {
      forall i, j | 0 <= i < j < |freq| ensures freq[i] < freq[j] {
        assert freq[i] == now + p.frequency[i].offset;
        assert freq[j] == now + p.frequency[j].offset;
      }
    }
    assert freq[0] == now + p.frequency[0].offset;
    assert freq[|freq| - 1] == now + p.frequency[|p.frequency| - 1].offset;
  }

  /** Whatever a tone schedules outside its frequency envelope comes from its
      gain envelope and lifetime alone. */
  lemma ToneElsewhere(p: Preset, now: real, sel: Selector)
    requires sel.StartTimes? || sel.StopTimes? || sel.param == Gain
    ensures Collect(ToneCalls(p, now), sel) == Collect(GainAndLifetime(p, now), sel)
  {
    ToneCallsCollect(p, now, sel);
    FrequencyCallsElsewhere(p.frequency, now, sel);
  }

  /** A tone starts once, at `now`, and stops once, `stopAfter` later. */
  lemma ToneLifetime(p: Preset, now: real)
    ensures Collect(ToneCalls(p, now), StartTimes) == [now]
    ensures Collect(ToneCalls(p, now), StopTimes) == [now + p.stopAfter]
  {
    ToneElsewhere(p, now, StartTimes);
    GainAndLifetimeCollect(p, now, StartTimes);
    ToneElsewhere(p, now, StopTimes);
    GainAndLifetimeCollect(p, now, StopTimes);
  }

  /** Its gain is set at `now` and ramped to `floorGain`, reached at `gainRampEnd`. */
  lemma ToneGain(p: Preset, now: real)
    ensures Collect(ToneCalls(p, now), TimesOf(Gain)) == [now, now + p.gainRampEnd]
    ensures Collect(ToneCalls(p, now), RampTimesOf(Gain)) == [now + p.gainRampEnd]
    ensures Collect(ToneCalls(p, now), RampTargetsOf(Gain)) == [p.floorGain]
  {
    ToneElsewhere(p, now, TimesOf(Gain));
    GainAndLifetimeCollect(p, now, TimesOf(Gain));
    ToneElsewhere(p, now, RampTimesOf(Gain));
    GainAndLifetimeCollect(p, now, RampTimesOf(Gain));
    ToneElsewhere(p, now, RampTargetsOf(Gain));
    GainAndLifetimeCollect(p, now, RampTargetsOf(Gain));
  }

  /** Its frequency ramps aim at positive values when every breakpoint is positive. */
  lemma ToneFrequencyTargets(p: Preset, now: real)
    requires forall i :: 0 <= i < |p.frequency| ==> p.frequency[i].hz > 0.0
    ensures forall v :: v in Collect(ToneCalls(p, now), RampTargetsOf(Frequency)) ==> v > 0.0
  {
    ToneCallsCollect(p, now, RampTargetsOf(Frequency));
    FrequencyCallsTargets(p.frequency, now);
    GainAndLifetimeCollect(p, now, RampTargetsOf(Frequency));
  }

  /** Well-formedness only depends on what a log schedules. */
  lemma WellFormedToneSameSchedule(a: seq<AudioCall>, b: seq<AudioCall>, now: real)
    requires forall sel: Selector :: Collect(a, sel) == Collect(b, sel)
    requires WellFormedTone(a, now)
    ensures WellFormedTone(b, now)
  {
    assert Collect(a, StopTimes) == Collect(b, StopTimes);
    assert Collect(a, TimesOf(Frequency)) == Collect(b, TimesOf(Frequency));
    assert Collect(a, RampTargetsOf(Frequency)) == Collect(b, RampTargetsOf(Frequency));
    assert Collect(a, RampTargetsOf(Gain)) == Collect(b, RampTargetsOf(Gain));
  }

  /** Every preset whose constants satisfy `PresetOk` plays a well-formed tone. */
  lemma ToneCallsWellFormed(p: Preset, now: real)
    requires PresetOk(p)
    ensures WellFormedTone(ToneCalls(p, now), now)
  {
    var calls, stop := ToneCalls(p, now), now + p.stopAfter;
    var freq := Collect(calls, TimesOf(Frequency));
    assert Collect(calls, StartTimes) == [now] && Collect(calls, StopTimes) == [stop] by {
      ToneLifetime(p, now);
    }
    assert Collect(calls, TimesOf(Gain)) == [now, stop] && Collect(calls, RampTimesOf(Gain)) == [stop]
        && Collect(calls, RampTargetsOf(Gain)) == [p.floorGain] by {
      ToneGain(p, now);
    }
    assert forall v :: v in Collect(calls, RampTargetsOf(Frequency)) ==> v > 0.0 by {
      ToneFrequencyTargets(p, now);
    }
    assert |freq| > 0 && freq[0] == now && StrictlyIncreasing(freq) && freq[|freq| - 1] < stop by {
      ToneFrequencyTimes(p, now);
    }
    WellFormedToneIntro(calls, now, stop, p.floorGain);
  }

  /** The conditions of `WellFormedTone`, with the stop time and gain floor named. */
  lemma WellFormedToneIntro(calls: seq<AudioCall>, now: real, stop: real, floor: real)
    requires Collect(calls, StartTimes) == [now]
    requires Collect(calls, StopTimes) == [stop] && now < stop
    requires var freq := Collect(calls, TimesOf(Frequency));
      |freq| > 0 && freq[0] == now && StrictlyIncreasing(freq) && freq[|freq| - 1] < stop
    requires Collect(calls, TimesOf(Gain)) == [now, stop]
    requires Collect(calls, RampTimesOf(Gain)) == [stop]
    requires Collect(calls, RampTargetsOf(Gain)) == [floor] && floor > 0.0
    requires forall v :: v in Collect(calls, RampTargetsOf(Frequency)) ==> v > 0.0
    ensures WellFormedTone(calls, now)
  {
  }

  /** The node set-up schedules nothing. */
  lemma NodeSetupSchedulesNothing(sel: Selector)
    ensures Collect(NodeSetup(), sel) == []
  {
    var n := NodeSetup();
    assert n[..3] == [OscillatorCreated, GainCreated, OscillatorConnectedToGain];
    assert n[..3][..2] == [OscillatorCreated, GainCreated];
    assert n[..3][..2][..1] == [OscillatorCreated];
    assert n[..3][..2][..1][..0] == [];
    assert Pick(sel, OscillatorCreated) == [] && Pick(sel, GainCreated) == [];
    assert Pick(sel, OscillatorConnectedToGain) == [] && Pick(sel, GainConnectedToDestination) == [];
    assert Collect([OscillatorCreated], sel) == [];
    assert Collect([OscillatorCreated, GainCreated], sel) == [];
    assert Collect([OscillatorCreated, GainCreated, OscillatorConnectedToGain], sel) == [];
  }

  /** Neither a resume request nor the node set-up schedules anything. */
  lemma PlaybackPrefixSchedulesNothing(resume: bool, sel: Selector)
    ensures Collect((if resume then [ResumeRequested] else []) + NodeSetup(), sel) == []
  {
    var first: seq<AudioCall> := if resume then [ResumeRequested] else [];
    CollectAppend(first, NodeSetup(), sel);
    NodeSetupSchedulesNothing(sel);
    if resume {
      CollectOne(ResumeRequested, sel);
    }
  }

  /** A whole playback schedules what its tone schedules. */
  lemma PlaybackCollect(resume: bool, p: Preset, now: real, sel: Selector)
    ensures Collect(PlaybackCalls(resume, p, now), sel) == Collect(ToneCalls(p, now), sel)
  {
    var prefix := (if resume then [ResumeRequested] else []) + NodeSetup();
    CollectAppend(prefix, ToneCalls(p, now), sel);
    PlaybackPrefixSchedulesNothing(resume, sel);
  }

  /** A whole playback is well formed. */
  lemma PlaybackWellFormed(resume: bool, p: Preset, now: real)
    requires PresetOk(p)
    ensures WellFormedTone(PlaybackCalls(resume, p, now), now)
  {
    ToneCallsWellFormed(p, now);
    forall sel: Selector
      ensures Collect(ToneCalls(p, now), sel) == Collect(PlaybackCalls(resume, p, now), sel)
    {
      PlaybackCollect(resume, p, now, sel);
    }
    WellFormedToneSameSchedule(ToneCalls(p, now), PlaybackCalls(resume, p, now), now);
  }

  /** A resume request, when there is one, comes first, before any node is
      created, and there is at most one. */
  lemma PlaybackResumesFirst(resume: bool, p: Preset, now: real)
    ensures resume <==> PlaybackCalls(resume, p, now)[0] == ResumeRequested
    ensures ResumeRequested !in PlaybackCalls(resume, p, now)[1..]
  {
    var calls := PlaybackCalls(resume, p, now);
    FrequencyCallsNeverResume(p.frequency, now);
    assert ResumeRequested !in ToneCalls(p, now);
    if resume {
      assert calls[1..] == NodeSetup() + ToneCalls(p, now);
    } else {
      assert calls[1..] == NodeSetup()[1..] + ToneCalls(p, now);
    }
  }

  lemma {:induction false} FrequencyCallsNeverResume(points: seq<FrequencyPoint>, now: real)
    ensures ResumeRequested !in FrequencyCalls(points, now)
  {
    if points != [] {
      FrequencyCallsNeverResume(points[1..], now);
    }
  }
}
