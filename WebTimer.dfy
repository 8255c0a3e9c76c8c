/** The web PomodoroTimer component (components/PomodoroTimer.tsx):
    countdown, one background track per mode while running, and a trivia
    line picked at random on every mode change.

    As in the native variant, one object is one mounted component whose
    fields are its state variables, its ref, and what the host holds on
    its behalf; handlers and effects are atomic and closures read the
    current state, with one exception: the run-state effect depends on
    the run flag alone, so the `stopMusic` its cleanup calls is the one
    from the render in which that effect last ran, and it reads that
    render's `sound`. `Math.random()` is a parameter `rand` in [0, 1). */
module WebTimer {
  import opened Pomodoro

  /** `verstappenFacts` holds 5 entries. */
  const VERSTAPPEN_FACT_COUNT: nat := 5

  /** `Math.floor(Math.random() * verstappenFacts.length)`. */
  function RandomFactIndex(rand: real): (r: nat)
    requires 0.0 <= rand < 1.0
    ensures r < VERSTAPPEN_FACT_COUNT
    ensures r as real <= rand * VERSTAPPEN_FACT_COUNT as real < r as real + 1.0
  {
    (rand * VERSTAPPEN_FACT_COUNT as real).Floor
  }

  /** Every fact can be picked: the draw `i / 5` lands on index `i`. */
  lemma RandomFactIndexOnto(i: nat)
    requires i < VERSTAPPEN_FACT_COUNT
    ensures 0.0 <= i as real / VERSTAPPEN_FACT_COUNT as real < 1.0
    ensures RandomFactIndex(i as real / VERSTAPPEN_FACT_COUNT as real) == i
  {
  }

  class PomodoroTimer {
    // state variables (`sound` is a state variable here, not a ref)
    var isPomodoro: bool
    var secondsLeft: int
    var isRunning: bool
    var factIdx: nat
    var sound: Option<Handle>
    // ref: `interval.current`
    var interval: Option<Handle>
    // the `sound` that the pending run-state cleanup's `stopMusic` read
    var cleanupSound: Option<Handle>
    // host side: the track (work or break) of the loaded sound, the sounds
    // loaded and not yet unloaded, the live tick timers, and the next
    // fresh handle
    var soundIsPomodoro: bool
    var loadedSounds: set<Handle>
    var tickTimers: set<Handle>
    var nextHandle: Handle

    /** The countdown-relevant state as a value. */
    function Countdown(): Clock
      reads this
    {
      Clock(isPomodoro, secondsLeft, isRunning)
    }

    /** What holds at every step: the fact index is in range, the countdown
        is within its phase, the only loaded sound is the one `sound`
        holds, the only live timer is the one `interval` holds, and every
        handle was handed out before. */
    ghost predicate Valid()
      reads this
    {
      factIdx < VERSTAPPEN_FACT_COUNT &&
      0 <= secondsLeft <= Duration(isPomodoro) &&
      loadedSounds == Held(sound) &&
      tickTimers <= Held(interval) &&
      (sound.Some? ==> sound.value < nextHandle) &&
      (interval.Some? ==> interval.value < nextHandle) &&
      (cleanupSound.Some? ==> cleanupSound.value < nextHandle)
    }

    /** What holds between events: the countdown is positive, a tick timer
        is live exactly while running, a sound is held only while running
        and is then the current mode's track, and the sound the pending
        cleanup read is no longer loaded. */
    ghost predicate Settled()
      reads this
    {
      Valid() &&
      Inv(Countdown()) &&
      (tickTimers != {} <==> isRunning) &&
      (sound.Some? ==> isRunning && soundIsPomodoro == isPomodoro) &&
      (cleanupSound.Some? ==> cleanupSound.value !in loadedSounds)
    }

    /** Between events at most one tick timer is live, and a loaded sound
        exists only while running. */
    lemma SettledCounts()
      requires Settled()
      ensures |tickTimers| <= 1
      ensures |loadedSounds| <= 1 && (loadedSounds != {} ==> isRunning)
    {
      AtMostOneLive(tickTimers, interval);
      AtMostOneLive(loadedSounds, sound);
    }

    /** First render and the mount effects; the mode effect draws the
        first fact. */
    constructor (rand: real)
      requires 0.0 <= rand < 1.0
      ensures Settled()
      ensures Countdown() == Initial
      ensures factIdx == RandomFactIndex(rand)
      ensures sound.None? && tickTimers == {}
    {
      isPomodoro, secondsLeft, isRunning := true, POMODORO_DURATION, false;
      factIdx := 0;
      sound, interval, cleanupSound := None, None, None;
      soundIsPomodoro := true;
      loadedSounds, tickTimers := {}, {};
      nextHandle := 0;
      new;
      RunEffectBody(false);
      ModeEffect(rand);
    }

    /** `clearInterval(h)`. */
    method ClearInterval(h: Handle)
      requires Valid()
      modifies this`tickTimers
      ensures Valid()
      ensures tickTimers == old(tickTimers) - {h}
    {
      tickTimers := tickTimers - {h};
    }

    /** `stopMusic` from a render whose `sound` was `read`: stop, unload
        and drop that sound. A sound already unloaded makes `stopAsync`
        reject, so nothing happens then. */
    method StopMusic(read: Option<Handle>)
      requires Valid()
      modifies this`sound, this`loadedSounds
      ensures Valid()
      ensures read.Some? && read.value in old(loadedSounds) ==> sound.None? && loadedSounds == {}
      ensures !(read.Some? && read.value in old(loadedSounds)) ==>
        sound == old(sound) && loadedSounds == old(loadedSounds)
    {
      if read.Some? && read.value in loadedSounds {
        loadedSounds := loadedSounds - {read.value};
        sound := None;
      }
    }

    /** `playMusic`: `stopMusic` first, then load the current mode's track,
        playing. A failed load (`loadOk` false) is swallowed. */
    method PlayMusic(loadOk: bool)
      requires Valid()
      modifies this`sound, this`loadedSounds, this`nextHandle, this`soundIsPomodoro
      ensures Valid()
      ensures old(sound).Some? ==> old(sound).value !in loadedSounds
      ensures loadOk ==> sound == Some(old(nextHandle)) && loadedSounds == {sound.value} && soundIsPomodoro == isPomodoro
      ensures !loadOk ==> sound.None? && loadedSounds == {}
    {
      StopMusic(sound);
      if loadOk {
        var h := nextHandle;
        nextHandle := nextHandle + 1;
        loadedSounds := loadedSounds + {h};
        soundIsPomodoro := isPomodoro;
        sound := Some(h);
      }
    }

    /** `handleSwitch`: the countdown switch alone; the music is left to
        the run-state effect. */
    method HandleSwitch()
      requires Valid()
      modifies this`isPomodoro, this`secondsLeft, this`isRunning
      ensures Valid()
      ensures Countdown() == Switch(old(Countdown()))
    {
      isPomodoro, secondsLeft, isRunning :=
        !isPomodoro, if isPomodoro then BREAK_DURATION else POMODORO_DURATION, false;
    }

    /** The tick timer's callback: the updater's value, then the switch
        when the updater called it. */
    method TickCallback()
      requires Valid()
      modifies this`isPomodoro, this`secondsLeft, this`isRunning
      ensures Valid()
      ensures Countdown() == Tick(old(Countdown()))
    {
      var u := Updater(secondsLeft);
      secondsLeft := u.returned;
      if u.callsSwitch {
        HandleSwitch();
      }
    }

    /** Cleanup of the run-state effect: clear the tick timer through the
        ref, then the captured `stopMusic`, which reads `cleanupSound`. */
    method RunEffectCleanup()
      requires Valid()
      modifies this`tickTimers, this`sound, this`loadedSounds
      ensures Valid()
      ensures tickTimers == {}
      ensures cleanupSound.Some? && cleanupSound.value in old(loadedSounds) ==>
        sound.None? && loadedSounds == {}
      ensures !(cleanupSound.Some? && cleanupSound.value in old(loadedSounds)) ==>
        sound == old(sound) && loadedSounds == old(loadedSounds)
    {
      if interval.Some? {
        ClearInterval(interval.value);
      }
      StopMusic(cleanupSound);
    }

    /** Body of the run-state effect (dependency: running). Running: start
        one tick timer and `playMusic`. Stopped: clear the tick timer and
        `stopMusic`. The previous run's cleanup has run before it. The
        cleanup it leaves behind reads the `sound` of this render. */
    method RunEffectBody(loadOk: bool)
      requires Valid()
      requires isRunning ==> tickTimers == {}
      modifies this`interval, this`tickTimers, this`nextHandle, this`sound, this`loadedSounds, this`soundIsPomodoro
      modifies this`cleanupSound
      ensures Valid()
      ensures cleanupSound == old(sound)
      ensures cleanupSound.Some? ==> cleanupSound.value !in loadedSounds
      ensures isRunning ==> interval.Some? && interval.value >= old(nextHandle) && tickTimers == {interval.value}
      ensures isRunning ==> (sound.Some? <==> loadOk) && (sound.Some? ==> soundIsPomodoro == isPomodoro)
      ensures !isRunning ==> tickTimers == {} && sound.None? && loadedSounds == {}
    {
      cleanupSound := sound;
      if isRunning {
        var h := nextHandle;
        nextHandle := nextHandle + 1;
        tickTimers := tickTimers + {h};
        interval := Some(h);
        PlayMusic(loadOk);
      } else {
        if interval.Some? {
          ClearInterval(interval.value);
        }
        StopMusic(sound);
      }
    }

    /** The mode effect (dependency: mode): draw a fact index at random.
        The `onStateChange` notification it also sends is outside the model. */
    method ModeEffect(rand: real)
      requires Valid()
      requires 0.0 <= rand < 1.0
      modifies this`factIdx
      ensures Valid()
      ensures factIdx == RandomFactIndex(rand)
    {
      factIdx := RandomFactIndex(rand);
    }

    /** The Start/Pause button: flip the run flag, then re-run the
        run-state effect. */
    method PressStartPause(loadOk: bool)
      requires Settled()
      modifies this
      ensures Settled()
      ensures Countdown() == ToggleRun(old(Countdown()))
      ensures factIdx == old(factIdx)
      ensures isRunning ==> (sound.Some? <==> loadOk)
      ensures !isRunning ==> sound.None? && loadedSounds == {}
    {
      isRunning := !isRunning;
      RunEffectCleanup();
      RunEffectBody(loadOk);
    }

    /** The Switch button: `handleSwitch`; the run-state effect when the
        timer was running; the mode effect always. */
    method PressSwitch(rand: real)
      requires Settled()
      requires 0.0 <= rand < 1.0
      modifies this
      ensures Settled()
      ensures Countdown() == Switch(old(Countdown()))
      ensures sound.None? && loadedSounds == {} && tickTimers == {}
      ensures factIdx == RandomFactIndex(rand)
    {
      var wasRunning := isRunning;
      HandleSwitch();
      if wasRunning {
        RunEffectCleanup();
        RunEffectBody(false);
      }
      ModeEffect(rand);
    }

    /** The live tick timer fires: the callback, and when it switched the
        mode, the effects that depend on the run flag and the mode. */
    method TickTimerFires(rand: real)
      requires Settled() && isRunning
      requires 0.0 <= rand < 1.0
      modifies this
      ensures Settled()
      ensures Countdown() == Tick(old(Countdown()))
      ensures old(secondsLeft) > 1 ==>
        sound == old(sound) && tickTimers == old(tickTimers) && factIdx == old(factIdx)
      ensures old(secondsLeft) <= 1 ==>
        sound.None? && loadedSounds == {} && tickTimers == {} && factIdx == RandomFactIndex(rand)
    {
      var wasPomodoro := isPomodoro;
      TickCallback();
      if isPomodoro != wasPomodoro {
        RunEffectCleanup();
        RunEffectBody(false);
        ModeEffect(rand);
      }
    }

    /** Unmount: the run-state effect's cleanup clears the tick timer, but
        its `stopMusic` read `sound` when the run flag last changed, before
        the track was loaded; a track held while running stays loaded and
        keeps looping. */
    method Unmount()
      requires Settled()
      modifies this`tickTimers, this`sound, this`loadedSounds
      ensures tickTimers == {}
      ensures sound == old(sound) && loadedSounds == old(loadedSounds)
    {
      RunEffectCleanup();
    }
  }
}
