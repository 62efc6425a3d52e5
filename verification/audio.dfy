/**
 * The audio manager as a state machine. The Web Audio graph is replaced by
 * the commands a call would issue (start a loop, start a one-shot, start a
 * synthetic bubble, stop a tracked source, close the context); the manager's
 * own bookkeeping (flags, configuration, master gain, loaded buffers,
 * tracked sources) is modelled exactly.
 */
module Audio {
  import opened Optional
  import opened Numeric
  import Store

  /** The four configured volumes. */
  datatype Config = Config(masterVolume: real, ambientVolume: real, effectsVolume: real, musicVolume: real)

  const DefaultConfig: Config := Config(0.7, 0.4, 0.6, 0.3)

  /** The three files the manager tries to load. */
  const SoundFiles: set<string> := {"ambient", "swim", "interaction"}

  /**
   * `hasContext` is whether an `AudioContext` object is held (it stays held,
   * closed, after `dispose`); `masterGain` is the master gain value, `None`
   * before a gain node exists; `sounds` are the decoded buffers by name;
   * `sources` are the names of tracked playing sources in insertion order.
   */
  datatype State = State(
    initialized: bool,
    muted: bool,
    config: Config,
    hasContext: bool,
    masterGain: Option<real>,
    sounds: set<string>,
    sources: seq<string>)

  /** What a call asks of the audio graph. */
  datatype Command =
    | StopSource(name: string)
    | StartLoop(name: string, volume: real)
    | StartOneShot(name: string, volume: real, playbackRate: Option<real>, detune: Option<real>)
    | StartBubble(startFrequency: real)
    | CloseContext

  datatype Output = Output(state: State, commands: seq<Command>)

  function Initial(): (s: State)
    ensures !s.initialized && !s.muted && s.config == DefaultConfig
    ensures s.masterGain == None && s.sources == []
  {
    State(false, false, DefaultConfig, false, None, {}, [])
  }

  predicate UnitVolume(v: real) {
    0.0 <= v <= 1.0
  }

  /**
   * The manager's invariant: volumes lie in `[0, 1]`; while unmuted the
   * master gain, once it exists, equals the master volume; an initialised
   * manager holds a context and a gain; the only tracked source is the
   * ambient loop, at most once.
   */
  predicate Valid(s: State) {
    && UnitVolume(s.config.masterVolume) && UnitVolume(s.config.ambientVolume)
    && UnitVolume(s.config.effectsVolume) && UnitVolume(s.config.musicVolume)
    && (!s.muted && s.masterGain.Some? ==> s.masterGain.value == s.config.masterVolume)
    && (s.initialized ==> s.hasContext && s.masterGain.Some?)
    && (s.sources == [] || s.sources == ["ambient"])
  }

  lemma InitialValid()
    ensures Valid(Initial())
  {
  }

  /**
   * `initialize`: nothing when already initialised; when the context cannot
   * be created nothing changes; otherwise a gain at the master volume is
   * created (whatever the mute flag), the files that loaded are added and
   * the manager is initialised even if none loaded.
   */
  function Initialize(s: State, contextOk: bool, loaded: set<string>): (r: State)
    ensures s.initialized || !contextOk ==> r == s
    ensures !s.initialized && contextOk ==>
      && r.initialized && r.hasContext
      && r.masterGain == Some(s.config.masterVolume)
      && r.sounds == s.sounds + (loaded * SoundFiles)
      && r.(initialized := s.initialized, hasContext := s.hasContext, masterGain := s.masterGain, sounds := s.sounds) == s
  {
    if s.initialized || !contextOk then s
    else s.(initialized := true, hasContext := true, masterGain := Some(s.config.masterVolume),
            sounds := s.sounds + (loaded * SoundFiles))
  }

  /** A second initialisation is a no-op, whatever it would load. */
  lemma InitializeIdempotent(s: State, ok1: bool, l1: set<string>, ok2: bool, l2: set<string>)
    requires ok1
    ensures Initialize(Initialize(s, ok1, l1), ok2, l2) == Initialize(s, ok1, l1)
  {
  }

  /** Playback of any kind needs an initialised, unmuted manager. */
  predicate Audible(s: State) {
    s.initialized && !s.muted
  }

  /** `source.stop()` for a tracked name, which is then forgotten; an untracked name does nothing. */
  function StopSound(s: State, name: string): (r: Output)
    ensures name !in s.sources ==> r == Output(s, [])
    ensures name in s.sources ==> r.commands == [StopSource(name)]
    ensures name !in r.state.sources
    ensures forall n :: n in r.state.sources <==> n in s.sources && n != name
    ensures r.state.(sources := s.sources) == s
  {
    if name in s.sources then Output(s.(sources := Remove(s.sources, name)), [StopSource(name)])
    else Output(s, [])
  }

  /** The sequence without any occurrence of `name`, order kept. */
  function Remove(names: seq<string>, name: string): (r: seq<string>)
    ensures forall n :: n in r <==> n in names && n != name
    ensures |r| <= |names|
    ensures name !in names ==> r == names
  {
    if |names| == 0 then []
    else if names[0] == name then Remove(names[1..], name)
    else [names[0]] + Remove(names[1..], name)
  }

  /** `stopAll`: every tracked source is stopped, in insertion order. */
  function StopAll(s: State): (r: Output)
    ensures r.state == s.(sources := [])
    ensures |r.commands| == |s.sources|
    ensures forall i :: 0 <= i < |s.sources| ==> r.commands[i] == StopSource(s.sources[i])
    decreases |s.sources|
  {
    if |s.sources| == 0 then Output(s, [])
    else
      var rest := StopAll(s.(sources := s.sources[1..]));
      Output(rest.state, [StopSource(s.sources[0])] + rest.commands)
  }

  /**
   * `playAmbient`: when audible with the ambient buffer, a context and a
   * gain, a previous ambient loop is stopped and a new loop at the ambient
   * volume is started and tracked.
   */
  function PlayAmbient(s: State): (r: Output)
    ensures !(Audible(s) && "ambient" in s.sounds && s.hasContext && s.masterGain.Some?) ==> r == Output(s, [])
    ensures Audible(s) && "ambient" in s.sounds && s.hasContext && s.masterGain.Some? ==>
      && r.state == s.(sources := Remove(s.sources, "ambient") + ["ambient"])
      && r.commands == (if "ambient" in s.sources then [StopSource("ambient")] else [])
                       + [StartLoop("ambient", s.config.ambientVolume)]
  {
    if !Audible(s) || "ambient" !in s.sounds || !s.hasContext || s.masterGain.None? then Output(s, [])
    else
      var stopped := StopSound(s, "ambient");
      Output(stopped.state.(sources := stopped.state.sources + ["ambient"]),
             stopped.commands + [StartLoop("ambient", s.config.ambientVolume)])
  }

  /** Restarting the ambient track never stacks loops: exactly one is tracked afterwards. */
  lemma AmbientNeverStacks(s: State)
    requires Valid(s)
    requires Audible(s) && "ambient" in s.sounds
    ensures PlayAmbient(s).state.sources == ["ambient"]
    ensures PlayAmbient(PlayAmbient(s).state).commands
            == [StopSource("ambient"), StartLoop("ambient", s.config.ambientVolume)]
  {
    assert Remove(["ambient"], "ambient") == [];
  }

  /** JavaScript truthiness of an optional number: absent and 0 are both falsy. */
  function IfNonZero(v: Option<real>): (r: Option<real>)
    ensures r.Some? <==> v.Some? && v.value != 0.0
    ensures r.Some? ==> r == v
  {
    if v.Some? && v.value != 0.0 then v else None
  }

  /**
   * `playOneShot`: with the buffer, a context and a gain, start the sound at
   * `volume`; a playback rate or detune of 0 is not applied. Not tracked.
   */
  function PlayOneShot(s: State, name: string, volume: real, playbackRate: Option<real>, detune: Option<real>): (r: Output)
    ensures r.state == s
    ensures name !in s.sounds || !s.hasContext || s.masterGain.None? ==> r.commands == []
    ensures name in s.sounds && s.hasContext && s.masterGain.Some? ==>
      r.commands == [StartOneShot(name, volume, IfNonZero(playbackRate), IfNonZero(detune))]
  {
    if name !in s.sounds || !s.hasContext || s.masterGain.None? then Output(s, [])
    else Output(s, [StartOneShot(name, volume, IfNonZero(playbackRate), IfNonZero(detune))])
  }

  /**
   * `playSwimSound(intensity)`: effects volume times intensity, playback rate
   * `0.8 + 0.4 * intensity`, detune `(random - 0.5) * 200` with the random
   * draw `jitter` in `[0, 1)`.
   */
  /** The volume of a swim sound: the effects volume scaled by the intensity. */
  function SwimVolume(effectsVolume: real, intensity: real): (r: real)
    ensures 0.0 <= effectsVolume && 0.0 <= intensity <= 1.0 ==> 0.0 <= r <= effectsVolume
  {
    assert 0.0 <= effectsVolume && 0.0 <= intensity <= 1.0 ==> 0.0 <= effectsVolume * intensity <= effectsVolume by {
      if 0.0 <= effectsVolume && 0.0 <= intensity <= 1.0 {
        ScaleDown(effectsVolume, intensity);
      }
    }
    effectsVolume * intensity
  }

  function PlaySwimSound(s: State, intensity: real, jitter: real): (r: Output)
    requires 0.0 <= jitter < 1.0
    ensures r.state == s
    ensures !Audible(s) ==> r.commands == []
    ensures Audible(s) ==> r == PlayOneShot(s, "swim", SwimVolume(s.config.effectsVolume, intensity),
                                            Some(0.8 + intensity * 0.4), Some((jitter - 0.5) * 200.0))
  {
    if !Audible(s) then Output(s, [])
    else PlayOneShot(s, "swim", SwimVolume(s.config.effectsVolume, intensity), Some(0.8 + intensity * 0.4), Some((jitter - 0.5) * 200.0))
  }

  /** For an intensity in `[0, 1]` a swim sound plays at a rate in `[0.8, 1.2]`, never louder than the effects volume. */
  lemma SwimSoundRange(s: State, intensity: real, jitter: real)
    requires Valid(s) && 0.0 <= intensity <= 1.0 && 0.0 <= jitter < 1.0
    ensures var cs := PlaySwimSound(s, intensity, jitter).commands;
      cs != [] ==>
      && |cs| == 1 && cs[0].StartOneShot? && cs[0].name == "swim"
      && cs[0].playbackRate.Some? && 0.8 <= cs[0].playbackRate.value <= 1.2
      && 0.0 <= cs[0].volume <= s.config.effectsVolume
      && (cs[0].detune.Some? ==> -100.0 <= cs[0].detune.value < 100.0)
  {
    SwimRate(s, intensity, jitter);
    SwimSoundVolume(s, intensity, jitter);
    SwimDetune(s, intensity, jitter);
  }

  lemma SwimRate(s: State, intensity: real, jitter: real)
    requires 0.0 <= intensity <= 1.0 && 0.0 <= jitter < 1.0
    ensures var cs := PlaySwimSound(s, intensity, jitter).commands;
      cs != [] ==> |cs| == 1 && cs[0].StartOneShot? && cs[0].name == "swim"
                   && cs[0].playbackRate.Some? && 0.8 <= cs[0].playbackRate.value <= 1.2
  {
    if Audible(s) {
      SwimDelegates(s, intensity, jitter);
    }
  }

  lemma SwimSoundVolume(s: State, intensity: real, jitter: real)
    requires Valid(s) && 0.0 <= intensity <= 1.0 && 0.0 <= jitter < 1.0
    ensures var cs := PlaySwimSound(s, intensity, jitter).commands;
      cs != [] ==> |cs| == 1 && cs[0].StartOneShot? && 0.0 <= cs[0].volume <= s.config.effectsVolume
  {
    var cs := PlaySwimSound(s, intensity, jitter).commands;
    if cs != [] {
      SwimDelegates(s, intensity, jitter);
    }
  }

  lemma SwimDetune(s: State, intensity: real, jitter: real)
    requires 0.0 <= jitter < 1.0
    ensures var cs := PlaySwimSound(s, intensity, jitter).commands;
      cs != [] ==> |cs| == 1 && cs[0].StartOneShot? && (cs[0].detune.Some? ==> -100.0 <= cs[0].detune.value < 100.0)
  {
    if Audible(s) {
      SwimDelegates(s, intensity, jitter);
    }
  }

  lemma SwimDelegates(s: State, intensity: real, jitter: real)
    requires 0.0 <= jitter < 1.0 && Audible(s)
    ensures PlaySwimSound(s, intensity, jitter).commands
         == PlayOneShot(s, "swim", SwimVolume(s.config.effectsVolume, intensity), Some(0.8 + intensity * 0.4), Some((jitter - 0.5) * 200.0)).commands
  {
  }

  /**
   * `playInteractionSound`: the effects volume, playback rate
   * `1 + (random - 0.5) * 0.2` and detune `(random - 0.5) * 100`, the two
   * random draws being `rateJitter` and `detuneJitter` in `[0, 1)`.
   */
  function PlayInteractionSound(s: State, rateJitter: real, detuneJitter: real): (r: Output)
    requires 0.0 <= rateJitter < 1.0 && 0.0 <= detuneJitter < 1.0
    ensures r.state == s
    ensures !Audible(s) ==> r.commands == []
    ensures Audible(s) ==> r == PlayOneShot(s, "interaction", s.config.effectsVolume,
                                            Some(1.0 + (rateJitter - 0.5) * 0.2), Some((detuneJitter - 0.5) * 100.0))
  {
    if !Audible(s) then Output(s, [])
    else PlayOneShot(s, "interaction", s.config.effectsVolume,
                     Some(1.0 + (rateJitter - 0.5) * 0.2), Some((detuneJitter - 0.5) * 100.0))
  }

  /** An interaction sound plays at a rate in `[0.9, 1.1)` and the full effects volume. */
  lemma InteractionSoundRange(s: State, rateJitter: real, detuneJitter: real)
    requires 0.0 <= rateJitter < 1.0 && 0.0 <= detuneJitter < 1.0
    ensures forall c :: c in PlayInteractionSound(s, rateJitter, detuneJitter).commands ==>
      && c.StartOneShot? && c.name == "interaction" && c.volume == s.config.effectsVolume
      && c.playbackRate.Some? && 0.9 <= c.playbackRate.value < 1.1
      && (c.detune.Some? ==> -50.0 <= c.detune.value < 50.0)
  {
  }

  /**
   * `playBubbleSound`: an oscillator starting at `800 + random * 400` Hz,
   * with the random draw `jitter` in `[0, 1)`; needs an audible manager with
   * a context and a gain, but no loaded buffer.
   */
  function PlayBubbleSound(s: State, jitter: real): (r: Output)
    requires 0.0 <= jitter < 1.0
    ensures r.state == s
    ensures !(Audible(s) && s.hasContext && s.masterGain.Some?) ==> r.commands == []
    ensures Audible(s) && s.hasContext && s.masterGain.Some? ==>
      |r.commands| == 1 && r.commands[0].StartBubble? && 800.0 <= r.commands[0].startFrequency < 1200.0
  {
    if !Audible(s) || !s.hasContext || s.masterGain.None? then Output(s, [])
    else Output(s, [StartBubble(800.0 + jitter * 400.0)])
  }

  /** `setMuted`: the flag, and the gain (when one exists) to 0 or back to the master volume. */
  function SetMuted(s: State, muted: bool): (r: State)
    ensures r.muted == muted
    ensures s.masterGain.None? ==> r.masterGain == None
    ensures s.masterGain.Some? ==> r.masterGain == Some(if muted then 0.0 else s.config.masterVolume)
    ensures r.(muted := s.muted, masterGain := s.masterGain) == s
  {
    s.(muted := muted, masterGain := if s.masterGain.Some? then Some(if muted then 0.0 else s.config.masterVolume) else None)
  }

  /** Muting and unmuting a consistent manager restores it exactly. */
  lemma MuteRoundTrip(s: State)
    requires Valid(s) && !s.muted
    ensures SetMuted(SetMuted(s, true), false) == s
  {
  }

  /** `setMasterVolume`: clamped into `[0, 1]`, and applied to the gain only while unmuted. */
  function SetMasterVolume(s: State, volume: real): (r: State)
    ensures r.config == s.config.(masterVolume := Clamp(0.0, 1.0, volume))
    ensures s.masterGain.Some? && !s.muted ==> r.masterGain == Some(r.config.masterVolume)
    ensures s.masterGain.None? || s.muted ==> r.masterGain == s.masterGain
    ensures r.(config := s.config, masterGain := s.masterGain) == s
  {
    var c := s.config.(masterVolume := Clamp(0.0, 1.0, volume));
    s.(config := c, masterGain := if s.masterGain.Some? && !s.muted then Some(c.masterVolume) else s.masterGain)
  }

  /** A master volume set while muted takes effect on unmute. */
  lemma VolumeWhileMutedAppliesOnUnmute(s: State, volume: real)
    requires s.masterGain.Some?
    ensures SetMuted(SetMasterVolume(SetMuted(s, true), volume), false).masterGain == Some(Clamp(0.0, 1.0, volume))
  {
  }

  /** `setAmbientVolume`: clamped; a playing ambient loop keeps the volume it started with. */
  function SetAmbientVolume(s: State, volume: real): (r: State)
    ensures r.config == s.config.(ambientVolume := Clamp(0.0, 1.0, volume))
    ensures r.(config := s.config) == s
  {
    s.(config := s.config.(ambientVolume := Clamp(0.0, 1.0, volume)))
  }

  /** `setEffectsVolume`: clamped. */
  function SetEffectsVolume(s: State, volume: real): (r: State)
    ensures r.config == s.config.(effectsVolume := Clamp(0.0, 1.0, volume))
    ensures r.(config := s.config) == s
  {
    s.(config := s.config.(effectsVolume := Clamp(0.0, 1.0, volume)))
  }

  /** What `getConfig` returns: a copy of the configuration with the two flags. */
  datatype ConfigView = ConfigView(masterVolume: real, ambientVolume: real, effectsVolume: real, musicVolume: real,
                                   isMuted: bool, isInitialized: bool)

  function GetConfig(s: State): (r: ConfigView)
    ensures Config(r.masterVolume, r.ambientVolume, r.effectsVolume, r.musicVolume) == s.config
    ensures r.isMuted == s.muted && r.isInitialized == s.initialized
  {
    ConfigView(s.config.masterVolume, s.config.ambientVolume, s.config.effectsVolume, s.config.musicVolume,
               s.muted, s.initialized)
  }

  /**
   * `dispose`: stop every tracked source, close the context if one is held,
   * and clear the initialised flag. Loaded buffers and the gain are kept.
   */
  function Dispose(s: State): (r: Output)
    ensures !r.state.initialized && r.state.sources == []
    ensures r.state.(initialized := s.initialized, sources := s.sources) == s
    ensures r.commands == StopAll(s).commands + (if s.hasContext then [CloseContext] else [])
  {
    var stopped := StopAll(s);
    Output(stopped.state.(initialized := false), stopped.commands + (if s.hasContext then [CloseContext] else []))
  }

  /** After `dispose` nothing plays until the manager is initialised again. */
  lemma DisposedIsSilent(s: State, intensity: real, j1: real, j2: real)
    requires 0.0 <= j1 < 1.0 && 0.0 <= j2 < 1.0
    ensures var d := Dispose(s).state;
      && PlayAmbient(d).commands == [] && PlaySwimSound(d, intensity, j1).commands == []
      && PlayInteractionSound(d, j1, j2).commands == [] && PlayBubbleSound(d, j1).commands == []
  {
  }

  /** While muted no play call issues a command or changes the state. */
  lemma MutedIsSilent(s: State, intensity: real, j1: real, j2: real)
    requires s.muted && 0.0 <= j1 < 1.0 && 0.0 <= j2 < 1.0
    ensures PlayAmbient(s) == Output(s, [])
    ensures PlaySwimSound(s, intensity, j1) == Output(s, [])
    ensures PlayInteractionSound(s, j1, j2) == Output(s, [])
    ensures PlayBubbleSound(s, j1) == Output(s, [])
  {
  }

  /** Every operation keeps the manager's invariant. */
  lemma OperationsPreserveValid(s: State, ok: bool, loaded: set<string>, muted: bool, v: real, name: string)
    requires Valid(s)
    ensures Valid(Initialize(s, ok, loaded))
    ensures Valid(PlayAmbient(s).state)
    ensures Valid(StopSound(s, name).state)
    ensures Valid(StopAll(s).state)
    ensures Valid(SetMuted(s, muted))
    ensures Valid(SetMasterVolume(s, v))
    ensures Valid(SetAmbientVolume(s, v))
    ensures Valid(SetEffectsVolume(s, v))
    ensures Valid(Dispose(s).state)
  {
    if "ambient" in s.sources {
      assert Remove(s.sources, "ambient") == [];
    }
    if name in s.sources {
      assert Remove(s.sources, name) == [];
    }
  }

  // ------------------------------------------------ the store's audio start-up

  /**
   * The store's `initializeAudio`: initialise the manager, resume its
   * context (`resumeOk` is whether that did not throw), start the ambient
   * loop and set the store's flag. The manager's own `initialize` never
   * throws, so only a failing resume stops the sequence.
   */
  function InitializeAudio(st: Store.State, a: State, contextOk: bool, loaded: set<string>, resumeOk: bool): (r: (Store.State, Output))
    ensures r.1.state.initialized <==> a.initialized || contextOk
    ensures !resumeOk ==> r.0 == st && r.1 == Output(Initialize(a, contextOk, loaded), [])
    ensures resumeOk ==> r.0 == Store.AudioInitFinished(st, true) && r.1 == PlayAmbient(Initialize(a, contextOk, loaded))
  {
    var a1 := Initialize(a, contextOk, loaded);
    if !resumeOk then (st, Output(a1, []))
    else (Store.AudioInitFinished(st, true), PlayAmbient(a1))
  }

  /**
   * The store's flag does not track the manager: when the context cannot be
   * created the store still records audio as initialised, so hiding the
   * instructions again never retries, and no ambient loop starts.
   */
  lemma FlagSetWithoutAudio(st: Store.State, a: State, loaded: set<string>)
    requires !a.initialized
    ensures var r := InitializeAudio(st, a, false, loaded, true);
      && r.0.audioInitialized && !r.1.state.initialized && r.1.commands == []
      && !Store.HideInstructions(r.0).1
  {
  }

  /** A successful start-up from a fresh manager with the ambient file loaded starts exactly one ambient loop. */
  lemma StartupPlaysAmbient(st: Store.State, loaded: set<string>)
    requires "ambient" in loaded
    ensures var r := InitializeAudio(st, Initial(), true, loaded, true);
      && r.0.audioInitialized
      && r.1.commands == [StartLoop("ambient", DefaultConfig.ambientVolume)]
      && r.1.state.sources == ["ambient"]
  {
  }
}
