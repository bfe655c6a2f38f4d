/** The copy of the timer that leaves the ticking to a background worker.
    The component sends the worker the commands START and STOP; the worker
    answers with a status message. Each "interval:running" message runs one
    tick, and the running flag is cleared only on "interval:ended". The
    messages are method calls here; the worker itself is not modelled. */
module Bckp {
  import opened Pomodoro
  import TimerDisplay

  /** The commands posted to the worker. */
  datatype Command = Start | Stop

  /** The statuses the worker reports. */
  const IntervalRunning := "interval:running"
  const IntervalEnded := "interval:ended"

  class Timer {
    var minutes: int
    var seconds: int
    var sessionLength: int
    var breakLength: int
    var isSession: bool
    var isTimeRunning: bool

    /** The six cells read together. */
    function State(): TimerState
      reads this
    {
      TimerState(minutes, seconds, sessionLength, breakLength, isSession, isTimeRunning)
    }

    predicate Valid()
      reads this
    {
      State().Valid()
    }

    /** The initial values of the six state cells. */
    constructor ()
      ensures Valid() && State() == Initial()
    {
      sessionLength := DefaultSessionLength;
      breakLength := DefaultBreakLength;
      minutes := DefaultSessionLength;
      seconds := 0;
      isSession := true;
      isTimeRunning := false;
    }

    /** Effect on a session-length change: re-sync only during a session. */
    method SessionLengthEffect()
      modifies this
      ensures isSession ==> State() == old(State()).(minutes := sessionLength, seconds := 0)
      ensures !isSession ==> State() == old(State())
    {
      if isSession {
        minutes := sessionLength;
        seconds := 0;
      }
    }

    /** Effect on a break-length change: re-sync only during a break. */
    method BreakLengthEffect()
      modifies this
      ensures !isSession ==> State() == old(State()).(minutes := breakLength, seconds := 0)
      ensures isSession ==> State() == old(State())
    {
      if !isSession {
        minutes := breakLength;
        seconds := 0;
      }
    }

    /** Effect on a modality change: reload the clock from the new modality. */
    method ModalityEffect()
      modifies this
      ensures State() == Reload(old(State()))
    {
      if isSession {
        minutes := sessionLength;
      } else {
        minutes := breakLength;
      }
      seconds := 0;
    }

    /** The message handler. A running status stores a fresh empty list,
        which always counts as a change, so the effect that depends on it
        runs exactly one tick; the tick does not look at the running flag.
        An ended status clears the running flag; any other status is
        only logged. */
    method OnMessage(status: string)
      requires Valid()
      modifies this
      ensures Valid()
      ensures status == IntervalRunning ==> State() == Tick(old(State()))
      ensures status == IntervalEnded ==> State() == old(State()).(isTimeRunning := false)
      ensures status != IntervalRunning && status != IntervalEnded ==> State() == old(State())
    {
      if status == IntervalRunning {
        ManageTimer();
      } else if status == IntervalEnded {
        isTimeRunning := false;
      }
    }

    /** One tick, with the modality effect when the clock was at 0:00. */
    method ManageTimer()
      requires Valid()
      modifies this
      ensures Valid() && State() == Tick(old(State()))
    {
      if minutes == 0 && seconds == 0 {
        isSession := !isSession;
        ModalityEffect();
      } else if seconds == 0 {
        seconds := 59;
        minutes := minutes - 1;
      } else {
        seconds := seconds - 1;
      }
    }

    /** Start sets the running flag and starts the worker. Stop only asks
        the worker to stop: the flag stays set until it answers. */
    method ToggleTimer() returns (command: Command)
      requires Valid()
      modifies this
      ensures Valid()
      ensures !old(isTimeRunning) ==> command == Start && State() == old(State()).(isTimeRunning := true)
      ensures old(isTimeRunning) ==> command == Stop && State() == old(State())
    {
      if !isTimeRunning {
        isTimeRunning := true;
        command := Start;
      } else {
        command := Stop;
      }
    }

    /** The increment button; while a stop is pending the flag is still set,
        so the button does nothing. */
    method Increment(which: Modality)
      requires Valid()
      modifies this
      ensures Valid() && State() == IncrementLength(old(State()), which)
    {
      var val := if which == Session then sessionLength else breakLength;
      if !isTimeRunning && val < MaxMinutes {
        if which == Session {
          sessionLength := sessionLength + 1;
          SessionLengthEffect();
        } else {
          breakLength := breakLength + 1;
          BreakLengthEffect();
        }
      }
    }

    /** The decrement button. */
    method Decrement(which: Modality)
      requires Valid()
      modifies this
      ensures Valid() && State() == DecrementLength(old(State()), which)
    {
      var val := if which == Session then sessionLength else breakLength;
      if !isTimeRunning && val > 1 {
        if which == Session {
          sessionLength := sessionLength - 1;
          SessionLengthEffect();
        } else {
          breakLength := breakLength - 1;
          BreakLengthEffect();
        }
      }
    }

    /** Manual switch between session and break. */
    method ChangeModality()
      requires Valid()
      modifies this
      ensures Valid() && State() == SwitchModality(old(State()))
    {
      isSession := !isSession;
      ModalityEffect();
    }

    /** Reset asks the worker to stop and restores the defaults, except the
        running flag, which waits for the worker's answer. */
    method ResetTimer() returns (command: Command)
      modifies this
      ensures command == Stop
      ensures Valid() && State() == Initial().(isTimeRunning := old(isTimeRunning))
    {
      var prev := State();
      command := Stop;
      seconds := 0;
      minutes := DefaultSessionLength;
      sessionLength := DefaultSessionLength;
      breakLength := DefaultBreakLength;
      isSession := true;
      if sessionLength != prev.sessionLength {
        SessionLengthEffect();
      }
      if breakLength != prev.breakLength {
        BreakLengthEffect();
      }
      if isSession != prev.isSession {
        ModalityEffect();
      }
    }

    /** What the Timer component shows. This copy pads both numbers itself
        and hands the padded text to the component, which pads it again;
        the second padding changes nothing. */
    function Display(): (v: TimerDisplay.View)
      reads this
      requires Valid()
      ensures v == TimerDisplay.Render(TimerDisplay.Num(minutes), TimerDisplay.Num(seconds), isSession)
      ensures |v.timeLeft| == 5 && TimerDisplay.IsClockText(v.timeLeft)
      ensures TimerDisplay.ReadClock(v.timeLeft) == (minutes, seconds)
    {
      var fixedMin := TimerDisplay.PadZero(TimerDisplay.Num(minutes));
      var fixedSec := TimerDisplay.PadZero(TimerDisplay.Num(seconds));
      TimerDisplay.PadZeroIdempotent(TimerDisplay.Num(minutes));
      TimerDisplay.PadZeroIdempotent(TimerDisplay.Num(seconds));
      TimerDisplay.Render(TimerDisplay.Str(fixedMin), TimerDisplay.Str(fixedSec), isSession)
    }
  }

  /** The stop handshake: toggling a running timer sends STOP and changes
      nothing; the worker's "interval:ended" answer then clears the flag,
      and the clock is where it was. */
  method StopHandshake(t: Timer)
    requires t.Valid() && t.isTimeRunning
    modifies t
    ensures t.Valid() && t.State() == old(t.State()).(isTimeRunning := false)
  {
    var command := t.ToggleTimer();
    t.OnMessage(IntervalEnded);
  }
}
