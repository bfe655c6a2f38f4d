/** The copy of the timer that keeps all six values in one aggregate record.
    Every transition is a record-to-record updater installed into the single
    `timerState` cell; the re-sync effects are updaters too, run when the
    value they depend on has changed.

    Two slips of this copy are reproduced as written: the break-length
    setter applies its update to the session length, and the modality
    switch negates a field the record does not have, so it always selects
    the session. */
module ObjApp {
  import opened Pomodoro

  /** What this copy keeps. The break length is bounded only by [0, 61]:
      an edit sets it to the session length plus or minus one. */
  predicate Invariant(s: TimerState) {
    s.ClockValid() && s.minutes <= MaxMinutes + 1 &&
    InBounds(s.sessionLength) && 0 <= s.breakLength <= MaxMinutes + 1
  }

  /** setSessionLength: the update is applied to the session length. */
  function SetSessionLength(prev: TimerState, fn: int -> int): (r: TimerState)
    ensures r.sessionLength == fn(prev.sessionLength)
    ensures r.(sessionLength := prev.sessionLength) == prev
  {
    prev.(sessionLength := fn(prev.sessionLength))
  }

  /** setBreakLength: the update is applied to the SESSION length, so the
      old break length plays no part in the new one. */
  function SetBreakLength(prev: TimerState, fn: int -> int): (r: TimerState)
    ensures r.breakLength == fn(r.sessionLength)
    ensures r.(breakLength := prev.breakLength) == prev
  {
    prev.(breakLength := fn(prev.sessionLength))
  }

  /** The updater of manageTimer: at 0:00 only the modality flips (the
      reload is left to the modality effect); otherwise one second goes. */
  function ManageTimerUpdate(prev: TimerState): (r: TimerState)
    requires prev.ClockValid()
    ensures r.ClockValid()
    ensures prev.AtZero() ==> r == prev.(isSession := !prev.isSession)
    ensures !prev.AtZero() ==> r.Remaining() == prev.Remaining() - 1 && r.isSession == prev.isSession
    ensures r.(minutes := prev.minutes, seconds := prev.seconds, isSession := prev.isSession) == prev
  {
    if prev.AtZero() then prev.(isSession := !prev.isSession)
    else if prev.seconds == 0 then prev.(minutes := prev.minutes - 1, seconds := 59)
    else prev.(seconds := prev.seconds - 1)
  }

  /** The updater of changeModality. The field it negates is missing from
      the record, so the result is always a session. */
  function ChangeModalityUpdate(prev: TimerState): (r: TimerState)
    ensures r.isSession
    ensures r.(isSession := prev.isSession) == prev
  {
    prev.(isSession := true)
  }

  /** Effect on a session-length change: during a session the clock
      restarts from the new length. */
  function SessionLengthEffect(prev: TimerState): (r: TimerState)
    ensures prev.isSession ==> r.minutes == prev.sessionLength && r.seconds == 0
    ensures !prev.isSession ==> r == prev
    ensures r.(minutes := prev.minutes, seconds := prev.seconds) == prev
  {
    if prev.isSession then prev.(minutes := prev.sessionLength, seconds := 0) else prev
  }

  /** Effect on a break-length change: during a break the minutes take the
      new length but the seconds are kept. */
  function BreakLengthEffect(prev: TimerState): (r: TimerState)
    ensures !prev.isSession ==> r.minutes == prev.breakLength
    ensures prev.isSession ==> r == prev
    ensures r.(minutes := prev.minutes) == prev
  {
    if !prev.isSession then prev.(minutes := prev.breakLength) else prev
  }

  class Timer {
    var timerState: TimerState

    predicate Valid()
      reads this
    {
      Invariant(timerState)
    }

    /** The initial value of the timerState cell. */
    constructor ()
      ensures Valid() && timerState == Initial()
    {
      timerState := Initial();
    }

    /** One delayed tick, scheduled only while the timer runs; when the
        modality flipped, the modality effect reloads the clock. */
    method ManageTimer()
      requires Valid() && timerState.isTimeRunning
      modifies this
      ensures Valid() && timerState == Tick(old(timerState))
    {
      var prev := timerState;
      timerState := ManageTimerUpdate(timerState);
      if timerState.isSession != prev.isSession {
        timerState := Reload(timerState);
      }
    }

    /** The increment button. A session edit behaves as in the other
        copies; a break edit yields the session length plus one, and
        re-syncs only the minutes, and only when the value changed. */
    method Increment(which: Modality)
      requires Valid()
      modifies this
      ensures Valid()
      ensures old(timerState).isTimeRunning || old(timerState).LengthOf(which) >= MaxMinutes ==>
        timerState == old(timerState)
      ensures !old(timerState).isTimeRunning && old(timerState).LengthOf(which) < MaxMinutes ==>
        if which == Session then
          timerState == SetLength(old(timerState), Session, old(timerState).sessionLength + 1)
        else
          var s, n := old(timerState), old(timerState).sessionLength + 1;
          timerState == s.(breakLength := n, minutes := if !s.isSession && n != s.breakLength then n else s.minutes)
    {
      var val := if which == Session then timerState.sessionLength else timerState.breakLength;
      if !timerState.isTimeRunning && val < MaxMinutes {
        var prev := timerState;
        if which == Session {
          timerState := SetSessionLength(timerState, x => x + 1);
          if timerState.sessionLength != prev.sessionLength {
            timerState := SessionLengthEffect(timerState);
          }
        } else {
          timerState := SetBreakLength(timerState, x => x + 1);
          if timerState.breakLength != prev.breakLength {
            timerState := BreakLengthEffect(timerState);
          }
        }
      }
    }

    /** The decrement button, with the same slip for the break length:
        the result is the session length minus one. */
    method Decrement(which: Modality)
      requires Valid()
      modifies this
      ensures Valid()
      ensures old(timerState).isTimeRunning || old(timerState).LengthOf(which) <= 1 ==>
        timerState == old(timerState)
      ensures !old(timerState).isTimeRunning && old(timerState).LengthOf(which) > 1 ==>
        if which == Session then
          timerState == SetLength(old(timerState), Session, old(timerState).sessionLength - 1)
        else
          var s, n := old(timerState), old(timerState).sessionLength - 1;
          timerState == s.(breakLength := n, minutes := if !s.isSession && n != s.breakLength then n else s.minutes)
    {
      var val := if which == Session then timerState.sessionLength else timerState.breakLength;
      if !timerState.isTimeRunning && val > 1 {
        var prev := timerState;
        if which == Session {
          timerState := SetSessionLength(timerState, x => x - 1);
          if timerState.sessionLength != prev.sessionLength {
            timerState := SessionLengthEffect(timerState);
          }
        } else {
          timerState := SetBreakLength(timerState, x => x - 1);
          if timerState.breakLength != prev.breakLength {
            timerState := BreakLengthEffect(timerState);
          }
        }
      }
    }

    /** Start or pause; nothing but the running flag changes. */
    method ToggleTimer()
      requires Valid()
      modifies this
      ensures Valid() && timerState == old(timerState).(isTimeRunning := !old(timerState).isTimeRunning)
    {
      timerState := timerState.(isTimeRunning := !timerState.isTimeRunning);
    }

    /** The modality button: from a break it returns to a freshly loaded
        session; during a session it changes nothing. */
    method ChangeModality()
      requires Valid()
      modifies this
      ensures Valid() && timerState.isSession
      ensures old(timerState).isSession ==> timerState == old(timerState)
      ensures !old(timerState).isSession ==>
        timerState == old(timerState).(isSession := true, minutes := old(timerState).sessionLength, seconds := 0)
    {
      var prev := timerState;
      timerState := ChangeModalityUpdate(timerState);
      if timerState.isSession != prev.isSession {
        timerState := Reload(timerState);
      }
    }

    /** Reset replaces the whole record with the defaults; the effects of
        the values that changed leave it as it is. */
    method ResetTimer()
      modifies this
      ensures Valid() && timerState == Initial()
    {
      var prev := timerState;
      timerState := Initial();
      if timerState.sessionLength != prev.sessionLength {
        timerState := SessionLengthEffect(timerState);
      }
      if timerState.breakLength != prev.breakLength {
        timerState := BreakLengthEffect(timerState);
      }
      if timerState.isSession != prev.isSession {
        timerState := Reload(timerState);
      }
    }
  }

  /** From the defaults, 35 presses of the session increment and one of the
      break increment take the break length past the maximum. */
  method BreakLengthPastMaximum() returns (breakLength: int)
    ensures breakLength == MaxMinutes + 1
  {
    var t := new Timer();
    var i := 0;
    while i < MaxMinutes - DefaultSessionLength
      invariant 0 <= i <= MaxMinutes - DefaultSessionLength
      invariant t.Valid() && !t.timerState.isTimeRunning
      invariant t.timerState.sessionLength == DefaultSessionLength + i
      invariant t.timerState.breakLength == DefaultBreakLength
    {
      t.Increment(Session);
      i := i + 1;
    }
    t.Increment(Break);
    breakLength := t.timerState.breakLength;
  }

  /** From the defaults, 24 presses of the session decrement and one of the
      break decrement bring the break length to zero. */
  method BreakLengthZero() returns (breakLength: int)
    ensures breakLength == 0
  {
    var t := new Timer();
    var i := 0;
    while i < DefaultSessionLength - 1
      invariant 0 <= i <= DefaultSessionLength - 1
      invariant t.Valid() && !t.timerState.isTimeRunning
      invariant t.timerState.sessionLength == DefaultSessionLength - i
      invariant t.timerState.breakLength == DefaultBreakLength
    {
      t.Decrement(Session);
      i := i + 1;
    }
    t.Decrement(Break);
    breakLength := t.timerState.breakLength;
  }
}
