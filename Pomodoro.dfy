/** The countdown core that both PomodoroTimer components share: the two
    phase durations, the (mode, seconds left, running) record, and the
    pure transitions the components apply to it. */
module Pomodoro {

  /** Length of a work phase: 25 minutes. */
  const POMODORO_DURATION: nat := 25 * 60
  /** Length of a break phase: 5 minutes. */
  const BREAK_DURATION: nat := 5 * 60

  /** Full length, in seconds, of the phase selected by `isPomodoro`. */
  function Duration(isPomodoro: bool): nat
  {
    if isPomodoro then POMODORO_DURATION else BREAK_DURATION
  }

  /** A reference that is either empty (`null`) or holds a value. */
  datatype Option<T> = None | Some(value: T)

  /** Opaque identity of a host resource: a loaded sound or a repeating timer. */
  type Handle = nat

  /** The handles a reference currently points to: none or one. */
  function Held(h: Option<Handle>): set<Handle>
  {
    if h.Some? then {h.value} else {}
  }

  /** The live resources a single ref keeps track of number at most one:
      this is why a component whose live tick timers all sit in its
      `interval` ref never runs two tick timers at once. */
  lemma AtMostOneLive(live: set<Handle>, ref: Option<Handle>)
    requires live <= Held(ref)
    ensures |live| <= 1
  {
    if ref.Some? && live != {} {
      assert live == {ref.value};
    }
  }

  /** The three state variables the countdown logic reads and writes. */
  datatype Clock = Clock(isPomodoro: bool, secondsLeft: int, isRunning: bool)

  /** State on first render: a paused, full-length work phase. */
  const Initial: Clock := Clock(true, POMODORO_DURATION, false)

  /** Between events the countdown is positive and at most its phase's length. */
  predicate Inv(c: Clock)
  {
    1 <= c.secondsLeft <= Duration(c.isPomodoro)
  }

  /** What the `setSecondsLeft` updater inside the tick callback returns,
      and whether it calls `handleSwitch`. */
  datatype TickUpdate = TickUpdate(returned: int, callsSwitch: bool)

  /** The tick updater: count down by one, or at one second or less hand
      over to the switch and return zero. */
  function Updater(s: int): (u: TickUpdate)
    ensures u.callsSwitch <==> s <= 1
    ensures u.returned >= 0
    ensures u.returned < s || s <= 0
    ensures !u.callsSwitch ==> u.returned == s - 1
  {
    if s <= 1 then TickUpdate(0, true) else TickUpdate(s - 1, false)
  }

  /** `handleSwitch` on the countdown, where the closure's captured mode is
      the current one: flip the mode, load the duration picked from the
      captured mode, and stop running. */
  function Switch(c: Clock): (r: Clock)
    ensures r.isPomodoro == !c.isPomodoro
    ensures r.secondsLeft == Duration(r.isPomodoro)
    ensures !r.isRunning
  {
    Clock(!c.isPomodoro, if c.isPomodoro then BREAK_DURATION else POMODORO_DURATION, false)
  }

  /** Net effect of one firing of the tick callback: the updater's value,
      overwritten by the switch's own `setSecondsLeft` when the updater
      called it. */
  function Tick(c: Clock): (r: Clock)
    ensures r.secondsLeft >= 1
  {
    var u := Updater(c.secondsLeft);
    var afterUpdater := c.(secondsLeft := u.returned);
    if u.callsSwitch then Switch(afterUpdater) else afterUpdater
  }

  /** The Start/Pause button's `setIsRunning((r) => !r)`. */
  function ToggleRun(c: Clock): (r: Clock)
    ensures r.isRunning == !c.isRunning
    ensures r.isPomodoro == c.isPomodoro && r.secondsLeft == c.secondsLeft
  {
    c.(isRunning := !c.isRunning)
  }

  /** `n` consecutive ticks. */
  function Ticks(c: Clock, n: nat): Clock
  {
    if n == 0 then c else Tick(Ticks(c, n - 1))
  }

  /** A tick above one second decrements and changes nothing else; a tick
      at one second or less is exactly a switch. */
  lemma TickCases(c: Clock)
    ensures c.secondsLeft > 1 ==> Tick(c) == c.(secondsLeft := c.secondsLeft - 1)
    ensures c.secondsLeft <= 1 ==> Tick(c) == Switch(c)
  {
  }

  /** Switching twice restores the original mode with its full duration,
      whatever the countdown was, and leaves the timer stopped. */
  lemma SwitchTwice(c: Clock)
    ensures Switch(Switch(c)) == Clock(c.isPomodoro, Duration(c.isPomodoro), false)
  {
  }

  /** The switch forgets the countdown: two states that differ only in
      their remaining seconds or run flag switch to the same state. */
  lemma SwitchIgnoresCountdown(c: Clock, d: Clock)
    requires c.isPomodoro == d.isPomodoro
    ensures Switch(c) == Switch(d)
  {
  }

  /** Pressing Start/Pause twice is the identity; once changes only the run flag. */
  lemma ToggleRunInvolution(c: Clock)
    ensures ToggleRun(ToggleRun(c)) == c
    ensures ToggleRun(c).isRunning != c.isRunning
    ensures ToggleRun(c).isPomodoro == c.isPomodoro && ToggleRun(c).secondsLeft == c.secondsLeft
  {
  }

  /** Every transition keeps the countdown within its phase. */
  lemma InvPreserved(c: Clock)
    requires Inv(c)
    ensures Inv(Tick(c)) && Inv(Switch(c)) && Inv(ToggleRun(c))
  {
  }

  /** While the countdown is above `n`, `n` ticks take exactly `n` seconds
      off and leave mode and run flag alone. */
  lemma {:induction false} CountdownRuns(c: Clock, n: nat)
    requires n < c.secondsLeft
    ensures Ticks(c, n) == c.(secondsLeft := c.secondsLeft - n)
  {
    if n > 0 {
      CountdownRuns(c, n - 1);
    }
  }

  /** A phase with `s` seconds left ends after exactly `s` ticks, in the
      state a switch produces. */
  lemma {:induction false} PhaseEndsInSwitch(c: Clock)
    requires c.secondsLeft >= 1
    ensures Ticks(c, c.secondsLeft) == Switch(c)
  {
    CountdownRuns(c, c.secondsLeft - 1);
  }

  /** Starting from the first render and pressing Start, the work phase
      lasts 1500 ticks and ends in a stopped five-minute break. */
  lemma {:induction false} FirstPomodoro()
    ensures Ticks(ToggleRun(Initial), POMODORO_DURATION) == Clock(false, BREAK_DURATION, false)
  {
    PhaseEndsInSwitch(ToggleRun(Initial));
  }

  /** Running work phase at one second: one tick gives a stopped break of 300 seconds. */
  lemma LastSecondOfWork()
    ensures Tick(Clock(true, 1, true)) == Clock(false, 300, false)
  {
  }
}
