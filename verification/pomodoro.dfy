/** The state of the Pomodoro countdown and the transitions of its canonical
    copy, written as functions on one record.

    The record is the aggregate `timerState` of the object-based copy and a
    snapshot of the six separate state cells of the other two copies. The
    functions below give the settled state after one user action or one tick,
    with the re-sync effects that the action triggers already applied. */
module Pomodoro {

  // PomodoroRules, declared identically by every copy of the timer
  const MaxMinutes := 60
  const DefaultSessionLength := 25
  const DefaultBreakLength := 5

  /** The two kinds of interval; also says which length an edit targets. */
  datatype Modality = Session | Break

  datatype TimerState = TimerState(
    minutes: int,
    seconds: int,
    sessionLength: int,
    breakLength: int,
    isSession: bool,
    isTimeRunning: bool)
  {
    /** The clock never shows negative time nor a full minute of seconds. */
    predicate ClockValid() {
      minutes >= 0 && 0 <= seconds <= 59
    }

    /** Enough for a tick to keep the clock valid: reloading from either
        length never makes the minutes negative. */
    predicate WellFormed() {
      ClockValid() && sessionLength >= 0 && breakLength >= 0
    }

    /** The invariant of the copies whose length edits are bounded. */
    predicate Valid() {
      ClockValid() && minutes <= MaxMinutes &&
      InBounds(sessionLength) && InBounds(breakLength)
    }

    /** Remaining time in seconds. */
    function Remaining(): int {
      minutes * 60 + seconds
    }

    predicate AtZero() {
      minutes == 0 && seconds == 0
    }

    function Active(): Modality {
      if isSession then Session else Break
    }

    function LengthOf(m: Modality): int {
      if m == Session then sessionLength else breakLength
    }
  }

  predicate InBounds(length: int) {
    1 <= length <= MaxMinutes
  }

  /** The state every copy starts from and resets to. */
  function Initial(): (s: TimerState)
    ensures s.Valid() && !s.isTimeRunning && s.isSession
    ensures s.LengthOf(Session) == DefaultSessionLength && s.LengthOf(Break) == DefaultBreakLength
    ensures s.Remaining() == DefaultSessionLength * 60
  {
    TimerState(DefaultSessionLength, 0, DefaultSessionLength, DefaultBreakLength, true, false)
  }

  /** The effect run when the modality changes: the clock restarts from the
      full length of the modality now active. */
  function Reload(s: TimerState): (r: TimerState)
    ensures r.Remaining() == s.LengthOf(s.Active()) * 60 && r.seconds == 0
    ensures r.(minutes := s.minutes, seconds := s.seconds) == s
    ensures s.WellFormed() ==> r.WellFormed()
  {
    s.(minutes := s.LengthOf(s.Active()), seconds := 0)
  }

  /** The two counting branches of a tick, for a clock not at 0:00. */
  function CountDown(s: TimerState): (r: TimerState)
    requires s.ClockValid() && !s.AtZero()
    ensures r.ClockValid() && r.Remaining() == s.Remaining() - 1
    ensures r.minutes <= s.minutes
    ensures r.(minutes := s.minutes, seconds := s.seconds) == s
  {
    if s.seconds == 0 then s.(minutes := s.minutes - 1, seconds := 59)
    else s.(seconds := s.seconds - 1)
  }

  /** One tick followed by the effects it triggers: at 0:00 the modality
      flips and the clock reloads from the new modality's length; otherwise
      the remaining time drops by exactly one second. */
  function Tick(s: TimerState): (r: TimerState)
    requires s.WellFormed()
    ensures r.WellFormed()
    ensures s.Valid() ==> r.Valid()
    ensures r.sessionLength == s.sessionLength && r.breakLength == s.breakLength
    ensures r.isTimeRunning == s.isTimeRunning
    ensures !s.AtZero() ==> r.isSession == s.isSession && r.Remaining() == s.Remaining() - 1
    ensures s.AtZero() ==> r.isSession == !s.isSession && r.seconds == 0 &&
                           r.minutes == s.LengthOf(if s.isSession then Break else Session)
  {
    if s.AtZero() then Reload(s.(isSession := !s.isSession))
    else CountDown(s)
  }

  /** Setting a length, followed by the effect that re-syncs the clock when
      the edited length is the active one. The effect depends on the length,
      so it runs only when the length actually changed. */
  function SetLength(s: TimerState, which: Modality, length: int): (r: TimerState)
    ensures r.LengthOf(which) == length
    ensures which == s.Active() && length != s.LengthOf(which) ==> r.minutes == length && r.seconds == 0
    ensures which != s.Active() || length == s.LengthOf(which) ==> r.minutes == s.minutes && r.seconds == s.seconds
    ensures length == s.LengthOf(which) ==> r == s
    ensures r.isSession == s.isSession && r.isTimeRunning == s.isTimeRunning
    ensures which == Session ==> r.breakLength == s.breakLength
    ensures which == Break ==> r.sessionLength == s.sessionLength
  {
    var edited := if which == Session then s.(sessionLength := length) else s.(breakLength := length);
    if which == s.Active() && length != s.LengthOf(which) then edited.(minutes := length, seconds := 0)
    else edited
  }

  /** The increment button: acts only when stopped and below the maximum. */
  function IncrementLength(s: TimerState, which: Modality): (r: TimerState)
    requires s.Valid()
    ensures r.Valid()
    ensures !s.isTimeRunning && s.LengthOf(which) < MaxMinutes ==> r == SetLength(s, which, s.LengthOf(which) + 1)
    ensures s.isTimeRunning || s.LengthOf(which) == MaxMinutes ==> r == s
  {
    if !s.isTimeRunning && s.LengthOf(which) < MaxMinutes then SetLength(s, which, s.LengthOf(which) + 1)
    else s
  }

  /** The decrement button: acts only when stopped and above one minute. */
  function DecrementLength(s: TimerState, which: Modality): (r: TimerState)
    requires s.Valid()
    ensures r.Valid()
    ensures !s.isTimeRunning && s.LengthOf(which) > 1 ==> r == SetLength(s, which, s.LengthOf(which) - 1)
    ensures s.isTimeRunning || s.LengthOf(which) == 1 ==> r == s
  {
    if !s.isTimeRunning && s.LengthOf(which) > 1 then SetLength(s, which, s.LengthOf(which) - 1)
    else s
  }

  /** Manual switch of modality, whatever time is left. */
  function SwitchModality(s: TimerState): (r: TimerState)
    requires s.Valid()
    ensures r.Valid()
    ensures r.isSession == !s.isSession && r.seconds == 0
    ensures r.minutes == r.LengthOf(r.Active())
    ensures r.sessionLength == s.sessionLength && r.breakLength == s.breakLength
    ensures r.isTimeRunning == s.isTimeRunning
  {
    Reload(s.(isSession := !s.isSession))
  }

  /** n consecutive ticks. */
  function Ticks(s: TimerState, n: nat): (r: TimerState)
    requires s.WellFormed()
    ensures r.WellFormed()
    ensures s.Valid() ==> r.Valid()
    ensures r.sessionLength == s.sessionLength && r.breakLength == s.breakLength
    ensures r.isTimeRunning == s.isTimeRunning
    decreases n
  {
    if n == 0 then s else Ticks(Tick(s), n - 1)
  }

  /** Running a ticks and then b more is running a + b ticks. */
  lemma {:induction false} TicksAdd(s: TimerState, a: nat, b: nat)
    requires s.WellFormed()
    ensures Ticks(s, a + b) == Ticks(Ticks(s, a), b)
    decreases a
  {
    if a > 0 {
      TicksAdd(Tick(s), a - 1, b);
    }
  }

  /** While time is left, n ticks take exactly n seconds off the clock and
      keep the modality. */
  lemma {:induction false} TicksCountDown(s: TimerState, n: nat)
    requires s.WellFormed() && n <= s.Remaining()
    ensures Ticks(s, n).Remaining() == s.Remaining() - n
    ensures Ticks(s, n).isSession == s.isSession
    decreases n
  {
    if n > 0 {
      TicksCountDown(Tick(s), n - 1);
    }
  }

  /** An interval ends after exactly its remaining seconds plus one tick: the
      tick that observes 0:00 flips the modality and loads the other length. */
  lemma IntervalEnds(s: TimerState)
    requires s.WellFormed()
    ensures Ticks(s, s.Remaining() + 1) ==
      s.(isSession := !s.isSession, minutes := s.LengthOf(if s.isSession then Break else Session), seconds := 0)
  {
    var n := s.Remaining();
    TicksCountDown(s, n);
    var z := Ticks(s, n);
    assert z.minutes == 0 && z.seconds == 0;
    assert z == s.(minutes := 0, seconds := 0);
    TicksAdd(s, n, 1);
    assert Ticks(z, 1) == Tick(z);
  }

  /** Ticking is periodic: a freshly loaded session comes back to itself
      after a full session, a full break and the two boundary ticks. */
  lemma FullCycle(s: TimerState)
    requires s.WellFormed() && s.isSession && s.minutes == s.sessionLength && s.seconds == 0
    ensures Ticks(s, (s.sessionLength * 60 + 1) + (s.breakLength * 60 + 1)) == s
  {
    var a := s.sessionLength * 60 + 1;
    var b := s.breakLength * 60 + 1;
    TicksAdd(s, a, b);
    IntervalEnds(s);
    var t := Ticks(s, a);
    assert t.Remaining() + 1 == b;
    IntervalEnds(t);
  }
}
