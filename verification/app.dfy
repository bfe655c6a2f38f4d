/** The copy of the timer that keeps its state in six separate cells and
    schedules each tick with a one-shot delay. */
module App {
  import opened Pomodoro
  import TimerDisplay

  class Timer {
    var minutes: int
    var seconds: int
    var sessionLength: int
    var breakLength: int
    var isSession: bool
    var isTimeRunning: bool

    /** The six cells read together. */
    function State(): TimerState
      reads this
    {
      TimerState(minutes, seconds, sessionLength, breakLength, isSession, isTimeRunning)
    }

    predicate Valid()
      reads this
    {
      State().Valid()
    }

    /** The initial values of the six state cells. */
    constructor ()
      ensures Valid() && State() == Initial()
    {
      sessionLength := DefaultSessionLength;
      breakLength := DefaultBreakLength;
      minutes := DefaultSessionLength;
      seconds := 0;
      isSession := true;
      isTimeRunning := false;
    }

    /** Effect on a session-length change: re-sync only during a session. */
    method SessionLengthEffect()
      modifies this
      ensures isSession ==> State() == old(State()).(minutes := sessionLength, seconds := 0)
      ensures !isSession ==> State() == old(State())
    {
      if isSession {
        minutes := sessionLength;
        seconds := 0;
      }
    }

    /** Effect on a break-length change: re-sync only during a break. */
    method BreakLengthEffect()
      modifies this
      ensures !isSession ==> State() == old(State()).(minutes := breakLength, seconds := 0)
      ensures isSession ==> State() == old(State())
    {
      if !isSession {
        minutes := breakLength;
        seconds := 0;
      }
    }

    /** Effect on a modality change: reload the clock from the new modality. */
    method ModalityEffect()
      modifies this
      ensures State() == Reload(old(State()))
    {
      if isSession {
        minutes := sessionLength;
      } else {
        minutes := breakLength;
      }
      seconds := 0;
    }

    /** One delayed tick; only scheduled while the timer runs. */
    method ManageTimer()
      requires Valid() && isTimeRunning
      modifies this
      ensures Valid() && State() == Tick(old(State()))
    {
      if minutes == 0 && seconds == 0 {
        isSession := !isSession;
        ModalityEffect();
      } else if seconds == 0 {
        seconds := 59;
        minutes := minutes - 1;
      } else {
        seconds := seconds - 1;
      }
    }

    /** The increment button of the session or the break length. */
    method Increment(which: Modality)
      requires Valid()
      modifies this
      ensures Valid() && State() == IncrementLength(old(State()), which)
    {
      var val := if which == Session then sessionLength else breakLength;
      if !isTimeRunning && val < MaxMinutes {
        // the value changes, so the effect depending on it runs
        if which == Session {
          sessionLength := sessionLength + 1;
          SessionLengthEffect();
        } else {
          breakLength := breakLength + 1;
          BreakLengthEffect();
        }
      }
    }

    /** The decrement button of the session or the break length. */
    method Decrement(which: Modality)
      requires Valid()
      modifies this
      ensures Valid() && State() == DecrementLength(old(State()), which)
    {
      var val := if which == Session then sessionLength else breakLength;
      if !isTimeRunning && val > 1 {
        if which == Session {
          sessionLength := sessionLength - 1;
          SessionLengthEffect();
        } else {
          breakLength := breakLength - 1;
          BreakLengthEffect();
        }
      }
    }

    /** Start or pause; nothing but the running flag changes. */
    method ToggleTimer()
      requires Valid()
      modifies this
      ensures Valid() && State() == old(State()).(isTimeRunning := !old(isTimeRunning))
    {
      isTimeRunning := !isTimeRunning;
    }

    /** Manual switch between session and break. */
    method ChangeModality()
      requires Valid()
      modifies this
      ensures Valid() && State() == SwitchModality(old(State()))
    {
      isSession := !isSession;
      ModalityEffect();
    }

    /** Reset to the defaults from any state; the effects of the cells that
        changed agree with the new values and leave them as they are. */
    method ResetTimer()
      modifies this
      ensures Valid() && State() == Initial()
    {
      var prev := State();
      isTimeRunning := false;
      seconds := 0;
      minutes := DefaultSessionLength;
      sessionLength := DefaultSessionLength;
      breakLength := DefaultBreakLength;
      isSession := true;
      if sessionLength != prev.sessionLength {
        SessionLengthEffect();
      }
      if breakLength != prev.breakLength {
        BreakLengthEffect();
      }
      if isSession != prev.isSession {
        ModalityEffect();
      }
    }

    /** What the Timer component shows for this state. */
    function Display(): (v: TimerDisplay.View)
      reads this
      requires Valid()
      ensures |v.timeLeft| == 5 && TimerDisplay.IsClockText(v.timeLeft)
      ensures TimerDisplay.ReadClock(v.timeLeft) == (minutes, seconds)
      ensures v.timerLabel == "Session" <==> isSession
    {
      TimerDisplay.Render(TimerDisplay.Num(minutes), TimerDisplay.Num(seconds), isSession)
    }
  }

  /** Starting from the defaults and pressing start, the first tick that
      shows a break comes after the whole session and one boundary tick. */
  method FirstBreak() returns (isSession: bool, minutes: int, seconds: int)
    ensures !isSession && minutes == DefaultBreakLength && seconds == 0
  {
    var t := new Timer();
    t.ToggleTimer();
    ghost var start := t.State();
    var n := 0;
    while n < DefaultSessionLength * 60 + 1
      invariant 0 <= n <= DefaultSessionLength * 60 + 1
      invariant t.Valid() && t.isTimeRunning
      invariant t.State() == Ticks(start, n)
    {
      TicksAdd(start, n, 1);
      t.ManageTimer();
      n := n + 1;
    }
    IntervalEnds(start);
    isSession, minutes, seconds := t.isSession, t.minutes, t.seconds;
  }
}
