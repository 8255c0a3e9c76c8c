/** The React Native PomodoroTimer component (components/PomodoroTimer.native.tsx):
    countdown, mute button, one background track per mode, and a trivia
    line that rotates every ten seconds.

    One object is one mounted component. Its fields are the component's
    state variables and refs, plus what the host holds on its behalf: the
    sounds currently loaded and the repeating timers currently live. Every
    handler and effect runs as one atomic step, and a closure reads the
    current state. */
module NativeTimer {
  import opened Pomodoro

  /** `f1Facts` holds 24 entries, six per driver. */
  const F1_FACT_COUNT: nat := 24

  /** The rotation's `(idx + 1) % f1Facts.length`: the next fact, wrapping
      from the last one back to the first. */
  function NextFactIndex(idx: nat): (r: nat)
    ensures r < F1_FACT_COUNT
    ensures idx + 1 < F1_FACT_COUNT ==> r == idx + 1
    ensures idx + 1 == F1_FACT_COUNT ==> r == 0
  {
    (idx + 1) % F1_FACT_COUNT
  }

  /** The fact shown after `n` rotations from the first render. */
  function FactAfter(n: nat): nat
  {
    if n == 0 then 0 else NextFactIndex(FactAfter(n - 1))
  }

  /** After `n` rotations the cursor stands at `n` modulo the list length. */
  lemma {:induction false} FactAfterRotations(n: nat)
    ensures FactAfter(n) == n % F1_FACT_COUNT
  {
    if n > 0 {
      FactAfterRotations(n - 1);
    }
  }

  class PomodoroTimer {
    // state variables
    var isMuted: bool
    var isMusicPlaying: bool
    var isPomodoro: bool
    var secondsLeft: int
    var isRunning: bool
    var factIdx: nat
    // refs: `factInterval.current`, `interval.current`, `soundRef.current`
    var factInterval: Option<Handle>
    var interval: Option<Handle>
    var sound: Option<Handle>
    // host side: playback status, mute status and track (work or break)
    // of the loaded sound, the sounds loaded and not yet unloaded, the
    // live repeating timers by callback, and the next fresh handle
    var soundPlaying: bool
    var soundMuted: bool
    var soundIsPomodoro: bool
    var loadedSounds: set<Handle>
    var tickTimers: set<Handle>
    var factTimers: set<Handle>
    var nextHandle: Handle

    /** The countdown-relevant state as a value. */
    function Countdown(): Clock
      reads this
    {
      Clock(isPomodoro, secondsLeft, isRunning)
    }

    /** What holds at every step, also in the middle of an event: the fact
        index is in range, the countdown is within its phase, the only
        loaded sound is the one `soundRef` holds, every live timer is the
        one its ref holds, and handles are distinct. */
    ghost predicate Valid()
      reads this
    {
      factIdx < F1_FACT_COUNT &&
      0 <= secondsLeft <= Duration(isPomodoro) &&
      loadedSounds == Held(sound) &&
      tickTimers <= Held(interval) &&
      factTimers <= Held(factInterval) &&
      (sound.Some? ==> sound.value < nextHandle) &&
      (interval.Some? ==> interval.value < nextHandle) &&
      (factInterval.Some? ==> factInterval.value < nextHandle) &&
      (interval.Some? && factInterval.Some? ==> interval.value != factInterval.value)
    }

    /** What holds between events, once every effect has run: the
        countdown is positive, a tick timer is live exactly while running,
        `isMusicPlaying` tells whether a sound is held, the held sound plays
        exactly while running, is muted exactly when the button says so and
        is the current mode's track, and the fact rotation is live. */
    ghost predicate Settled()
      reads this
    {
      Valid() &&
      Inv(Countdown()) &&
      (tickTimers != {} <==> isRunning) &&
      (isMusicPlaying <==> sound.Some?) &&
      (sound.Some? ==> soundPlaying == isRunning && soundMuted == isMuted && soundIsPomodoro == isPomodoro) &&
      factInterval.Some? && factTimers == {factInterval.value}
    }

    /** Between events at most one tick timer is live, at most one sound
        is loaded, and exactly one rotation timer is live. */
    lemma SettledCounts()
      requires Settled()
      ensures |tickTimers| <= 1 && |loadedSounds| <= 1 && |factTimers| == 1
    {
      AtMostOneLive(tickTimers, interval);
      AtMostOneLive(loadedSounds, sound);
    }

    /** First render and the mount effects. */
    constructor ()
      ensures Settled()
      ensures Countdown() == Initial
      ensures !isMuted && factIdx == 0
      ensures sound.None? && tickTimers == {}
    {
      isMuted, isMusicPlaying := false, false;
      isPomodoro, secondsLeft, isRunning := true, POMODORO_DURATION, false;
      factIdx := 0;
      factInterval, interval, sound := None, None, None;
      soundPlaying, soundMuted, soundIsPomodoro := false, false, true;
      loadedSounds, tickTimers, factTimers := {}, {}, {};
      nextHandle := 0;
      new;
      RunEffectBody(false);
      ModeEffect(false);
      FactEffect();
    }

    /** `clearInterval(h)`: the host forgets the timer, whichever callback it runs. */
    method ClearInterval(h: Handle)
      requires Valid()
      modifies this`tickTimers, this`factTimers
      ensures Valid()
      ensures tickTimers == old(tickTimers) - {h}
      ensures factTimers == old(factTimers) - {h}
    {
      tickTimers := tickTimers - {h};
      factTimers := factTimers - {h};
    }

    /** `stopMusic`: unload and drop the held sound, if any. */
    method StopMusic()
      requires Valid()
      modifies this`sound, this`loadedSounds, this`isMusicPlaying
      ensures Valid()
      ensures sound.None? && loadedSounds == {}
      ensures old(sound).Some? ==> !isMusicPlaying
      ensures old(sound).None? ==> isMusicPlaying == old(isMusicPlaying)
    {
      if sound.Some? {
        loadedSounds := loadedSounds - {sound.value};
        sound := None;
        isMusicPlaying := false;
      }
    }

    /** `if (soundRef.current) { unload; soundRef.current = null }`, the
        first step of both `playMusic` and the mode effect. Unlike
        `stopMusic` it leaves `isMusicPlaying` alone. */
    method ReleaseSound()
      requires Valid()
      modifies this`sound, this`loadedSounds
      ensures Valid()
      ensures sound.None? && loadedSounds == {}
    {
      if sound.Some? {
        loadedSounds := loadedSounds - {sound.value};
        sound := None;
      }
    }

    /** `playMusic`: unload any held sound first; when muted, load nothing;
        otherwise load the current mode's track, playing if the timer runs.
        A failed load (`loadOk` false) is swallowed. */
    method PlayMusic(loadOk: bool)
      requires Valid()
      modifies this`sound, this`loadedSounds, this`isMusicPlaying, this`soundPlaying, this`soundMuted, this`soundIsPomodoro, this`nextHandle
      ensures Valid()
      ensures old(sound).Some? ==> old(sound).value !in loadedSounds
      ensures isMuted ==> sound.None? && loadedSounds == {} && !isMusicPlaying
      ensures !isMuted && loadOk ==>
        sound == Some(old(nextHandle)) && isMusicPlaying && soundPlaying == isRunning && !soundMuted
        && soundIsPomodoro == isPomodoro
      ensures !isMuted && !loadOk ==> sound.None? && loadedSounds == {} && isMusicPlaying == old(isMusicPlaying)
    {
      ReleaseSound();
      if isMuted {
        isMusicPlaying := false;
      } else if loadOk {
        var h := nextHandle;
        nextHandle := nextHandle + 1;
        loadedSounds := {h};
        soundPlaying, soundMuted, soundIsPomodoro := isRunning, isMuted, isPomodoro;
        sound := Some(h);
        isMusicPlaying := true;
      }
    }

    /** `handleMutePress`: flip the mute flag and pass it on to the held sound. */
    method HandleMutePress()
      requires Valid()
      modifies this`isMuted, this`soundMuted
      ensures Valid()
      ensures isMuted == !old(isMuted)
      ensures sound.Some? ==> soundMuted == isMuted
      ensures sound.None? ==> soundMuted == old(soundMuted)
    {
      isMuted := !isMuted;
      if sound.Some? {
        soundMuted := isMuted;
      }
    }

    /** `handleSwitch`: the countdown switch, then `stopMusic`. */
    method HandleSwitch()
      requires Valid()
      modifies this`isPomodoro, this`secondsLeft, this`isRunning, this`sound, this`loadedSounds, this`isMusicPlaying
      ensures Valid()
      ensures Countdown() == Switch(old(Countdown()))
      ensures sound.None? && loadedSounds == {}
      ensures old(sound).Some? ==> !isMusicPlaying
      ensures old(sound).None? ==> isMusicPlaying == old(isMusicPlaying)
    {
      isPomodoro, secondsLeft, isRunning :=
        !isPomodoro, if isPomodoro then BREAK_DURATION else POMODORO_DURATION, false;
      StopMusic();
    }

    /** The tick timer's callback: the updater's value, then the switch
        when the updater called it. */
    method TickCallback()
      requires Valid()
      modifies this`isPomodoro, this`secondsLeft, this`isRunning, this`sound, this`loadedSounds, this`isMusicPlaying
      ensures Valid()
      ensures Countdown() == Tick(old(Countdown()))
      ensures old(secondsLeft) > 1 ==> sound == old(sound) && isMusicPlaying == old(isMusicPlaying)
      ensures old(secondsLeft) <= 1 ==> sound.None? && loadedSounds == {}
      ensures old(secondsLeft) <= 1 && old(sound).Some? ==> !isMusicPlaying
      ensures old(secondsLeft) <= 1 && old(sound).None? ==> isMusicPlaying == old(isMusicPlaying)
    {
      var u := Updater(secondsLeft);
      secondsLeft := u.returned;
      if u.callsSwitch {
        HandleSwitch();
      }
    }

    /** `nextFact`, once its fade-out has finished. */
    method NextFact()
      requires Valid()
      modifies this`factIdx
      ensures Valid()
      ensures factIdx == NextFactIndex(old(factIdx))
    {
      factIdx := NextFactIndex(factIdx);
    }

    /** Cleanup of the run-state effect: clear the tick timer, pause the sound. */
    method RunEffectCleanup()
      requires Valid()
      modifies this`tickTimers, this`factTimers, this`soundPlaying
      ensures Valid()
      ensures tickTimers == {} && factTimers == old(factTimers)
      ensures sound.Some? ==> !soundPlaying
      ensures sound.None? ==> soundPlaying == old(soundPlaying)
    {
      if interval.Some? {
        ClearInterval(interval.value);
      }
      if sound.Some? {
        soundPlaying := false;
      }
    }

    /** Body of the run-state effect (dependencies: running, muted, mode).
        Running: start one tick timer, then resume the held sound or, with
        none held, `playMusic`. Stopped: clear the tick timer, pause the
        sound. The previous run's cleanup has run before it. */
    method RunEffectBody(loadOk: bool)
      requires Valid()
      requires isRunning ==> tickTimers == {}
      modifies this`interval, this`tickTimers, this`factTimers, this`nextHandle
      modifies this`sound, this`loadedSounds, this`isMusicPlaying, this`soundPlaying, this`soundMuted, this`soundIsPomodoro
      ensures Valid()
      ensures factTimers == old(factTimers)
      ensures isRunning ==> interval.Some? && interval.value >= old(nextHandle) && tickTimers == {interval.value}
      ensures !isRunning ==> tickTimers == {} && sound == old(sound) && isMusicPlaying == old(isMusicPlaying)
      ensures !isRunning && sound.Some? ==> !soundPlaying && soundMuted == old(soundMuted) && soundIsPomodoro == old(soundIsPomodoro)
      ensures isRunning && old(sound).Some? ==>
        sound == old(sound) && soundPlaying && soundMuted == old(soundMuted) && isMusicPlaying == old(isMusicPlaying)
        && soundIsPomodoro == old(soundIsPomodoro)
      ensures isRunning && old(sound).None? && isMuted ==> sound.None? && !isMusicPlaying
      ensures isRunning && old(sound).None? && !isMuted && loadOk ==>
        sound.Some? && isMusicPlaying && soundPlaying && soundMuted == isMuted && soundIsPomodoro == isPomodoro
      ensures isRunning && old(sound).None? && !isMuted && !loadOk ==>
        sound.None? && isMusicPlaying == old(isMusicPlaying)
    {
      if isRunning {
        var h := nextHandle;
        nextHandle := nextHandle + 1;
        tickTimers := tickTimers + {h};
        interval := Some(h);
        if sound.None? {
          PlayMusic(loadOk);
        } else {
          soundPlaying := true;
        }
      } else {
        if interval.Some? {
          ClearInterval(interval.value);
        }
        if sound.Some? {
          soundPlaying := false;
        }
      }
    }

    /** The mode effect (dependency: mode): drop the held sound, then
        `playMusic` if running and not muted. The `onStateChange`
        notification it also sends is outside the model. */
    method ModeEffect(loadOk: bool)
      requires Valid()
      modifies this`sound, this`loadedSounds, this`isMusicPlaying, this`soundPlaying, this`soundMuted, this`soundIsPomodoro, this`nextHandle
      ensures Valid()
      ensures old(sound).Some? ==> old(sound).value !in loadedSounds
      ensures !(isRunning && !isMuted) ==> sound.None? && loadedSounds == {} && isMusicPlaying == old(isMusicPlaying)
      ensures isRunning && !isMuted && loadOk ==>
        sound.Some? && isMusicPlaying && soundPlaying && !soundMuted && soundIsPomodoro == isPomodoro
      ensures isRunning && !isMuted && !loadOk ==> sound.None? && isMusicPlaying == old(isMusicPlaying)
    {
      ReleaseSound();
      if isRunning && !isMuted {
        PlayMusic(loadOk);
      }
    }

    /** The mount-only fact effect: replace the rotation timer with a fresh one. */
    method FactEffect()
      requires Valid()
      modifies this`factInterval, this`tickTimers, this`factTimers, this`nextHandle
      ensures Valid()
      ensures factInterval == Some(old(nextHandle)) && factTimers == {factInterval.value}
      ensures tickTimers == old(tickTimers)
    {
      if factInterval.Some? {
        ClearInterval(factInterval.value);
      }
      var h := nextHandle;
      nextHandle := nextHandle + 1;
      factTimers := factTimers + {h};
      factInterval := Some(h);
    }

    /** The Start/Pause button: flip the run flag, then re-run the
        run-state effect. */
    method PressStartPause(loadOk: bool)
      requires Settled()
      modifies this
      ensures Settled()
      ensures Countdown() == ToggleRun(old(Countdown()))
      ensures isMuted == old(isMuted) && factIdx == old(factIdx)
      ensures old(sound).Some? ==> sound == old(sound)
      ensures !isRunning ==> sound == old(sound)
      ensures isRunning && !isMuted && loadOk ==> sound.Some? && soundPlaying
    {
      isRunning := !isRunning;
      RunEffectCleanup();
      RunEffectBody(loadOk);
    }

    /** The Switch button: `handleSwitch`, then both effects that depend
        on the mode. */
    method PressSwitch(loadOk: bool)
      requires Settled()
      modifies this
      ensures Settled()
      ensures Countdown() == Switch(old(Countdown()))
      ensures sound.None? && loadedSounds == {} && tickTimers == {}
      ensures isMuted == old(isMuted) && factIdx == old(factIdx)
    {
      HandleSwitch();
      RunEffectCleanup();
      RunEffectBody(loadOk);
      ModeEffect(loadOk);
    }

    /** The mute button: `handleMutePress`, then the run-state effect, which
        depends on the mute flag. The held sound is kept, never reloaded. */
    method PressMute(loadOk: bool)
      requires Settled()
      modifies this
      ensures Settled()
      ensures isMuted == !old(isMuted)
      ensures Countdown() == old(Countdown()) && factIdx == old(factIdx)
      ensures old(sound).Some? ==> sound == old(sound)
    {
      HandleMutePress();
      RunEffectCleanup();
      RunEffectBody(loadOk);
    }

    /** The live tick timer fires: the callback, and when it switched the
        mode, the effects that depend on it. */
    method TickTimerFires(loadOk: bool)
      requires Settled() && isRunning
      modifies this
      ensures Settled()
      ensures Countdown() == Tick(old(Countdown()))
      ensures isMuted == old(isMuted) && factIdx == old(factIdx)
      ensures old(secondsLeft) > 1 ==> sound == old(sound) && tickTimers == old(tickTimers)
      ensures old(secondsLeft) <= 1 ==> sound.None? && loadedSounds == {} && tickTimers == {}
    {
      var wasPomodoro := isPomodoro;
      TickCallback();
      if isPomodoro != wasPomodoro {
        RunEffectCleanup();
        RunEffectBody(loadOk);
        ModeEffect(loadOk);
      }
    }

    /** The rotation timer fires: `nextFact`. */
    method FactTimerFires()
      requires Settled()
      modifies this`factIdx
      ensures Settled()
      ensures factIdx == NextFactIndex(old(factIdx))
    {
      NextFact();
    }

    /** Unmount: the cleanups of the run-state and fact effects. The tick
        and rotation timers are cleared; the held sound is only paused and
        stays loaded. */
    method Unmount()
      requires Settled()
      modifies this`tickTimers, this`factTimers, this`soundPlaying
      ensures tickTimers == {} && factTimers == {}
      ensures sound == old(sound) && loadedSounds == Held(sound)
      ensures sound.Some? ==> !soundPlaying
    {
      RunEffectCleanup();
      ClearInterval(factInterval.value);
    }
  }
}
