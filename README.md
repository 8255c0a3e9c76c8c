# Pomodoro timer state machine, in Dafny

This project models the logic of the `PomodoroTimer` component of the
pomodoro-f1 app. The component alternates 25-minute work phases
("Pomodoro") with 5-minute breaks. It has a Start/Pause button and a Switch
button. It plays a background track for the current mode and shows a
rotating line of Formula 1 trivia. The component exists in two variants:

- `components/PomodoroTimer.native.tsx` (React Native). It adds a mute
  button, and it rotates through 24 facts in order every ten seconds.
- `components/PomodoroTimer.tsx` (web). It has no mute button, and it
  picks one of 5 facts at random on every mode change.

Files:

- `Pomodoro.dfy` (module `Pomodoro`) holds what both variants share. That
  is the two durations and the record `Clock(isPomodoro, secondsLeft,
  isRunning)`. It also holds the pure transitions on that record: the tick
  updater, the switch, the Start/Pause toggle, and the net effect of one
  tick. The lemmas say what a tick, a switch and a whole phase do.
- `TimeFormat.dfy` (module `TimeFormat`) models `formatTime`, which is the
  same in both files. It uses JavaScript's operators: `Math.floor` division,
  the truncating `%`, `toString` and `padStart(2, '0')`. A reader for the
  `MM:SS` text states what the rendering means.
- `NativeTimer.dfy` and `WebTimer.dfy` each hold a class `PomodoroTimer`.
  One object is one mounted component. Its fields are:
  - the component's state variables;
  - its refs (`soundRef.current`, `interval.current`,
    `factInterval.current`);
  - what the host holds for it: the sounds still loaded, the repeating
    timers still live, and a counter for fresh handles.

  Each handler and each effect is a method. `Valid()` holds at every step.
  `Settled()` holds between user-visible events. The `Press…`,
  `…TimerFires` and `Unmount` methods model one event each. An event runs
  the handler, then the cleanups of the effects whose dependencies changed,
  then those effects' bodies in declaration order, as React does. Each
  `Press…` and `…TimerFires` method proves that `Settled()` is preserved;
  `Unmount` states what is left behind instead.

Modelling decisions:

- Each handler and each effect is one atomic step. A closure reads the
  current state. In particular, `handleSwitch` picks the duration from the
  `isPomodoro` it captured, and the model takes that to be the current mode
  (the mode cannot change while a tick timer runs without stopping it).
  The one place where a stale read changes the outcome is modelled: the web
  run-state effect depends on `isRunning` alone, so the `stopMusic` its
  cleanup calls reads the `sound` of the render in which that effect last
  ran. The field `cleanupSound` records that value.
- In the tick callback, the updater returns 0 after calling `handleSwitch`.
  The switch's own `setSecondsLeft` is applied after it. The model keeps
  both steps (`TickCallback`), so the net value is the new mode's duration.
- Platform calls are abstract. A sound or a timer is a `Handle` (a natural
  number). `Audio.Sound.createAsync` either succeeds with a fresh handle or
  fails; the parameter `loadOk` says which. `unloadAsync` removes the handle
  from `loadedSounds`. `setInterval` and `clearInterval` add a handle to,
  or remove it from, the live timer sets.
- `Math.random()` is a `real` parameter in [0, 1).

Behaviour of the code that the model states as it is:

- The native unmount cleanup only pauses the held sound; it never unloads
  it. `NativeTimer.PomodoroTimer.Unmount` states that the sound stays
  loaded.
- The web unmount cleanup calls a `stopMusic` that read `sound` when the
  run flag last changed. When the timer was started, no sound was held
  yet, so that call unloads nothing: a track loaded while running stays
  loaded and keeps looping after unmount.
  `WebTimer.PomodoroTimer.Unmount` states that sound and loaded set are
  unchanged. Within events the stale cleanup is harmless, because the
  paused branch of the same effect unloads the current sound.
- The web fact cursor is not advanced: every mode change draws a random
  index.
- A tick switches when the updater sees one second or less, not at 0. So,
  between events, the countdown is never 0 (`Pomodoro.Tick`,
  `Pomodoro.Inv`).

## Model

| member | source | states |
|---|---|---|
| `Pomodoro.AtMostOneLive` | components/PomodoroTimer.native.tsx:62-97 | live timers that all sit in one ref number at most one; both classes' `Valid()` keeps every live tick timer in `interval.current`, so neither variant ever runs two tick timers (web: components/PomodoroTimer.tsx:40-68) |
| `Pomodoro.Updater` | components/PomodoroTimer.native.tsx:65-71 | the updater calls the switch exactly when `s <= 1`; otherwise it returns `s - 1`; its value is never negative and is below `s` whenever `s` is positive (identical code at components/PomodoroTimer.tsx:43-49) |
| `Pomodoro.Switch` | components/PomodoroTimer.native.tsx:135-138 | the mode flips; the countdown becomes the new mode's full duration (the break's 300 s when leaving work, the work phase's 1500 s when leaving a break, lines 11-12); running becomes false |
| `Pomodoro.Tick` | components/PomodoroTimer.native.tsx:62-72 | after one tick the countdown is at least 1, so never negative (web: components/PomodoroTimer.tsx:40-50) |
| `Pomodoro.TickCases` | components/PomodoroTimer.native.tsx:65-71 | above one second, a tick decrements and changes nothing else; at one second or less, it is exactly a switch |
| `Pomodoro.SwitchTwice` | components/PomodoroTimer.native.tsx:136-137 | switching twice restores the original mode, with its full duration, stopped, whatever the countdown was |
| `Pomodoro.SwitchIgnoresCountdown` | components/PomodoroTimer.native.tsx:137 | the switch's result depends only on the mode, not on the remaining seconds or the run flag |
| `Pomodoro.ToggleRun` | components/PomodoroTimer.tsx:120 | `setIsRunning((r) => !r)` flips the run flag and keeps mode and remaining seconds (native: components/PomodoroTimer.native.tsx:211) |
| `Pomodoro.ToggleRunInvolution` | components/PomodoroTimer.tsx:120 | Start/Pause flips only the run flag; pressing it twice is the identity; remaining seconds and mode are unchanged |
| `Pomodoro.InvPreserved` | components/PomodoroTimer.native.tsx:53-72 | tick, switch and Start/Pause keep the countdown between 1 and its mode's duration |
| `Pomodoro.CountdownRuns` | components/PomodoroTimer.native.tsx:64-71 | while more than `n` seconds are left, `n` ticks remove exactly `n` seconds and leave mode and run flag alone |
| `Pomodoro.PhaseEndsInSwitch` | components/PomodoroTimer.native.tsx:64-71 | a phase with `s` seconds left ends after exactly `s` ticks, in the state a switch produces |
| `Pomodoro.FirstPomodoro` | components/PomodoroTimer.native.tsx:52-72 | from the first render, after pressing Start, the work phase lasts 1500 ticks and ends in a stopped 300-second break |
| `Pomodoro.LastSecondOfWork` | components/PomodoroTimer.native.tsx:65-68 | a running work phase at one second becomes a stopped break with 300 seconds after one tick |
| `TimeFormat.Minutes` | components/PomodoroTimer.native.tsx:186 | `Math.floor(secs / 60)` is the `m` with `60m <= secs < 60(m+1)`, for negative counts too |
| `TimeFormat.SecondsOfMinute` | components/PomodoroTimer.native.tsx:187 | JavaScript's `secs % 60` lies in 0..59 for counts that are not negative and in -59..0 for negative ones, and differs from `secs` by a multiple of 60 |
| `TimeFormat.Digits` | components/PomodoroTimer.native.tsx:186-187 | `toString` of a natural number gives a non-empty string of decimal digits, one digit long exactly below 10 |
| `TimeFormat.NumberToString` | components/PomodoroTimer.native.tsx:186-187 | `toString` of an integer: digits that read back as the number when it is not negative; a leading `-` and the digits of the magnitude when it is negative; at most two characters exactly for -9..99 |
| `TimeFormat.FormatTime` | components/PomodoroTimer.native.tsx:185-189 | for a count that is not negative the text is a `MM:SS` reading: two or more minute digits, a colon, two second digits (web: components/PomodoroTimer.tsx:103-107) |
| `TimeFormat.PadStart2` | components/PomodoroTimer.native.tsx:186-187 | `padStart(2, '0')` gives length max(2, original), keeps the original as a suffix, and fills the front with zeros |
| `TimeFormat.ParseDigits` | components/PomodoroTimer.native.tsx:186-187 | reading the digits that `toString` produced gives back the number |
| `TimeFormat.PaddedDigits` | components/PomodoroTimer.native.tsx:186-187 | padding with zeros keeps the value the digits stand for |
| `TimeFormat.FormatTimeRoundTrip` | components/PomodoroTimer.native.tsx:185-189 | for every count that is not negative, the text is `MM:SS` with a two-digit seconds field worth 0..59, and it reads back as minutes*60+seconds == secs |
| `TimeFormat.FiveCharacters` | components/PomodoroTimer.tsx:103-107 | the text is at least 5 characters long, and exactly 5 (two minute digits) exactly when `secs < 6000` |
| `TimeFormat.PhaseFaces` | components/PomodoroTimer.native.tsx:185-189 | `formatTime(1500) == "25:00"` and `formatTime(300) == "05:00"` |
| `TimeFormat.NegativeFace` | components/PomodoroTimer.native.tsx:185-189 | a negative count, which the countdown never reaches, renders with mixed signs: `formatTime(-61) == "-2:-1"` |
| `NativeTimer.NextFactIndex` | components/PomodoroTimer.native.tsx:129 | the next fact index is always in `[0, 24)`; it is `idx + 1`, or wraps to 0 after the last fact |
| `NativeTimer.FactAfterRotations` | components/PomodoroTimer.native.tsx:113-131 | after `N` rotations from the first fact, the index is `N % 24` |
| `NativeTimer.PomodoroTimer.SettledCounts` | components/PomodoroTimer.native.tsx:62-97 | between events at most one tick timer is live, at most one sound is loaded, and exactly one rotation timer is live |
| `NativeTimer.PomodoroTimer.constructor` | components/PomodoroTimer.native.tsx:49-122 | first render plus mount effects: a paused 1500-second work phase, not muted, fact 0, no sound, no tick timer, one rotation timer |
| `NativeTimer.PomodoroTimer.ClearInterval` | components/PomodoroTimer.native.tsx:85 | the cleared handle is no longer a live timer; nothing else changes |
| `NativeTimer.PomodoroTimer.ReleaseSound` | components/PomodoroTimer.native.tsx:144-147 | the held sound is unloaded before the ref is cleared, so no sound is left loaded |
| `NativeTimer.PomodoroTimer.StopMusic` | components/PomodoroTimer.native.tsx:164-172 | afterwards no sound is held or loaded; with no sound held it changes nothing; otherwise `isMusicPlaying` becomes false |
| `NativeTimer.PomodoroTimer.PlayMusic` | components/PomodoroTimer.native.tsx:142-161 | any previously held sound is unloaded; when muted, no sound is held and `isMusicPlaying` is false; otherwise a fresh, unmuted sound of the current mode is held, playing exactly when running; a failed load leaves no sound, keeps `isMusicPlaying` and never touches the timer state |
| `NativeTimer.PomodoroTimer.HandleMutePress` | components/PomodoroTimer.native.tsx:175-183 | flips `isMuted` and passes the new flag to the held sound; touches nothing else |
| `NativeTimer.PomodoroTimer.HandleSwitch` | components/PomodoroTimer.native.tsx:135-140 | the countdown becomes `Switch` of the old one, and no sound is left held or loaded |
| `NativeTimer.PomodoroTimer.TickCallback` | components/PomodoroTimer.native.tsx:64-71 | the countdown becomes `Tick` of the old one; a decrement leaves the audio alone; a switch releases the sound |
| `NativeTimer.PomodoroTimer.NextFact` | components/PomodoroTimer.native.tsx:125-131 | `factIdx` becomes `NextFactIndex` of its old value |
| `NativeTimer.PomodoroTimer.RunEffectCleanup` | components/PomodoroTimer.native.tsx:91-96 | no tick timer is live afterwards; the rotation timer is untouched; the held sound is paused |
| `NativeTimer.PomodoroTimer.RunEffectBody` | components/PomodoroTimer.native.tsx:62-90 | when running, exactly one fresh tick timer is live, and a held sound resumes (or `playMusic` runs when none is held); when stopped, no tick timer is live and the held sound is paused |
| `NativeTimer.PomodoroTimer.ModeEffect` | components/PomodoroTimer.native.tsx:99-111 | the previously held sound is unloaded in every case; a sound of the current mode is loaded, playing and unmuted only when running, unmuted and the load succeeds; otherwise none is held |
| `NativeTimer.PomodoroTimer.FactEffect` | components/PomodoroTimer.native.tsx:114-122 | the only live rotation timer is a fresh one held by `factInterval`; tick timers are untouched |
| `NativeTimer.PomodoroTimer.PressStartPause` | components/PomodoroTimer.native.tsx:211 | keeps `Settled()`: one tick timer exactly while running, a held sound playing exactly while running; the countdown is `ToggleRun` of the old one; a held sound is kept, not reloaded; Pause keeps the sound; Start, unmuted with a successful load, leaves a playing sound |
| `NativeTimer.PomodoroTimer.PressSwitch` | components/PomodoroTimer.native.tsx:215 | keeps `Settled()`; the countdown is `Switch` of the old one; afterwards no sound is loaded and no tick timer is live |
| `NativeTimer.PomodoroTimer.PressMute` | components/PomodoroTimer.native.tsx:196 | keeps `Settled()`; flips `isMuted` (so pressing twice restores it); leaves mode, countdown and fact alone; never clears or replaces a held sound |
| `NativeTimer.PomodoroTimer.TickTimerFires` | components/PomodoroTimer.native.tsx:64-72 | keeps `Settled()`; the countdown is `Tick` of the old one; a decrement leaves sound and timer as they were; the last second leaves no sound and no tick timer |
| `NativeTimer.PomodoroTimer.FactTimerFires` | components/PomodoroTimer.native.tsx:116-118 | keeps `Settled()`; advances the fact index by one, wrapping |
| `NativeTimer.PomodoroTimer.Unmount` | components/PomodoroTimer.native.tsx:91-121 | no tick or rotation timer is left live; the held sound is paused but stays loaded |
| `WebTimer.RandomFactIndex` | components/PomodoroTimer.tsx:72 | `Math.floor(rand * 5)` is in `[0, 5)` and is the floor of `rand * 5` |
| `WebTimer.RandomFactIndexOnto` | components/PomodoroTimer.tsx:72 | every index in `[0, 5)` is drawn by some `rand` in [0, 1) |
| `WebTimer.PomodoroTimer.SettledCounts` | components/PomodoroTimer.tsx:40-68 | between events at most one tick timer is live, and at most one sound is loaded, only while running |
| `WebTimer.PomodoroTimer.constructor` | components/PomodoroTimer.tsx:32-74 | first render plus mount effects: a paused 1500-second work phase, no sound, no tick timer, and a random fact |
| `WebTimer.PomodoroTimer.ClearInterval` | components/PomodoroTimer.tsx:59 | the cleared handle is no longer a live timer |
| `WebTimer.PomodoroTimer.StopMusic` | components/PomodoroTimer.tsx:95-101 | given the `sound` its render read: when that sound is still loaded, afterwards no sound is held or loaded; otherwise (none read, or already unloaded so `stopAsync` rejects) nothing changes |
| `WebTimer.PomodoroTimer.PlayMusic` | components/PomodoroTimer.tsx:82-93 | `stopMusic` runs first, so the old sound is unloaded; a successful load leaves exactly one fresh sound of the current mode loaded; a failed load leaves none and never touches the timer state |
| `WebTimer.PomodoroTimer.HandleSwitch` | components/PomodoroTimer.tsx:76-80 | the countdown becomes `Switch` of the old one; the audio is untouched |
| `WebTimer.PomodoroTimer.TickCallback` | components/PomodoroTimer.tsx:42-50 | the countdown becomes `Tick` of the old one |
| `WebTimer.PomodoroTimer.RunEffectCleanup` | components/PomodoroTimer.tsx:63-68 | no tick timer is live afterwards; the sound is unloaded only when the `sound` the cleanup's closure read is still loaded, and is otherwise left as it was |
| `WebTimer.PomodoroTimer.RunEffectBody` | components/PomodoroTimer.tsx:40-68 | when running, exactly one fresh tick timer is live, and a sound of the current mode is held exactly when the load succeeds; when stopped, no timer is live and no sound is loaded; the cleanup it leaves reads this render's `sound`, which is no longer loaded |
| `WebTimer.PomodoroTimer.ModeEffect` | components/PomodoroTimer.tsx:70-74 | on a mode change the fact index becomes `RandomFactIndex(rand)`, which is in range |
| `WebTimer.PomodoroTimer.PressStartPause` | components/PomodoroTimer.tsx:120 | keeps `Settled()`: a tick timer is live exactly while running, and a sound is held only while running; the countdown is `ToggleRun` of the old one |
| `WebTimer.PomodoroTimer.PressSwitch` | components/PomodoroTimer.tsx:123 | keeps `Settled()`; the countdown is `Switch` of the old one; no sound and no timer remain; a new random fact is drawn |
| `WebTimer.PomodoroTimer.TickTimerFires` | components/PomodoroTimer.tsx:42-50 | keeps `Settled()`; the countdown is `Tick` of the old one; the last second leaves no sound, no timer and a new random fact |
| `WebTimer.PomodoroTimer.Unmount` | components/PomodoroTimer.tsx:63-68 | no tick timer is live afterwards, but the held sound and the loaded set are unchanged: a track loaded while running is never unloaded |

## Left out

- Rendering, styles, `SafeAreaView`, `StatusBar`, `ScrollView`, images and the screen shell `app/index.tsx`: these are layout only.
- The `Animated` pulse loop, the fact fade-out and fade-in, and the Lottie animation (including the web `LottieWrapper` platform switch). They are visual effects that never feed back into state. The model applies `nextFact`'s index update at once, without the 300 ms fade before it.
- The `onStateChange` callback in both mode effects. It is an external notification with no effect on component state.
- Wall-clock timing of the 1 s and 10 s timers: a timer firing is an event with no time attached.
- Interleaving at `await` points, React batching, and StrictMode's double invocation of updaters. Every handler and effect is one atomic step, and closures read the current state, except the web run-state cleanup's `stopMusic` (see above).
- `unloadAsync`, `stopAsync`, `pauseAsync`, `playAsync` and `setStatusAsync` are assumed to succeed on a loaded sound (the web `stopAsync` on a sound already unloaded rejects, so the `setSound(null)` after it is skipped). Only `createAsync` can fail (parameter `loadOk`). So the native `stopMusic`'s swallowed unload error is not represented.
- Which asset file a track is: a loaded sound records only whether it is the work or the break track.
- The fact texts. Only the lengths of `f1Facts` (24) and `verstappenFacts` (5) are modelled; no text is read.
- `TimeFormat.FormatTime`: JavaScript numbers are doubles, so `toString` switches to exponent notation from 1e21 and integers lose precision above 2^53. The model uses unbounded integers; the countdown never exceeds 1500, so the timer face is unaffected.
- `Math.random()` is a `real` in [0, 1). The rounding of double-precision floating point is not modelled.
- `isMusicPlaying` is modelled as state, but the source never renders it.
