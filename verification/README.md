# Pomodoro countdown timer — a Dafny model

The timer alternates between a session interval and a break interval,
counts the remaining time down one second per tick, and lets the user start
and pause it, edit both lengths (1 to 60 minutes, only while paused),
switch modality by hand and reset everything to 25/5 minutes. The
repository holds three diverging copies of that state machine, each
modelled here on its own terms:

- `app.dfy` (module `App`): `src/App.js`, six separate state cells, one
  delayed tick per render while running. A class with six fields.
- `objapp.dfy` (module `ObjApp`): `src/ObjApp.js`, one aggregate
  `timerState` record updated by record-to-record updaters. Pure functions
  for the updaters and effects, and a class holding the record.
- `bckp.dfy` (module `Bckp`): `Bckp.js`, six cells driven by a background
  worker. A class whose `OnMessage` method stands for the worker's replies
  and whose `ToggleTimer`/`ResetTimer` return the command they post.
- `pomodoro.dfy` (module `Pomodoro`): the `PomodoroRules` constants, the
  six-field `TimerState` record, and the transitions of `src/App.js` as
  functions on it (`Tick`, `IncrementLength`, `SwitchModality`, ...). The
  `App` and `Bckp` classes are proved against these functions; lemmas about
  runs of ticks (`TicksCountDown`, `IntervalEnds`, `FullCycle`) hold there.
- `timer_display.dfy` (module `TimerDisplay`): `src/components/Timer.js`,
  `padZero`, the `"MM:SS"` text and the "Session"/"Break" label.

In the source, part of every transition runs in a React effect that fires
after the value it depends on changed: a length edit re-syncs the clock
when the edited length is the active one, and a modality change reloads
the clock from the new modality's length. Each method here performs the
state update and then the effects whose dependency changed, in the order
the components declare them, so every method ends in the settled state.

Where the three copies differ, each module follows its own copy's code,
even where that departs from a clamped, uniform behaviour:

- `src/ObjApp.js:111`: the break-length setter applies `x => x + 1` or
  `x => x - 1` to the SESSION length. A break edit yields session length
  plus or minus one, so the break length ranges over [0, 61];
  `ObjApp.BreakLengthPastMaximum` and `ObjApp.BreakLengthZero` reach 61
  and 0 from the initial state.
- `src/ObjApp.js:44-53`: the break-length effect resets the minutes only;
  the seconds are kept. It fires only if the new break length differs
  from the old one.
- `src/ObjApp.js:160`: `changeModality` negates a field the record does not
  have, so it always selects the session. From a break it reloads the
  session length; during a session it changes nothing.
- `Bckp.js:132-139`, `Bckp.js:40-41`: pausing only posts STOP; the running
  flag is cleared by the worker's `"interval:ended"` reply. `resetTimer`
  (`Bckp.js:145-156`) likewise leaves the flag set. The tick run per
  `"interval:running"` message does not look at the flag.

## Model

| member | source | states |
|---|---|---|
| `Pomodoro.Initial` | src/App.js:9-20 | the start state is valid, stopped, in session, with lengths 25 and 5 and 25:00 left |
| `Pomodoro.Reload` | src/App.js:54-61 | the modality effect sets the remaining time to the full length of the active modality, 0 seconds, and changes nothing else |
| `Pomodoro.CountDown` | src/App.js:88-93 | away from 0:00 the remaining time (minutes·60+seconds) drops by exactly one second, the clock stays valid, nothing else changes |
| `Pomodoro.Tick` | src/App.js:85-94 | a tick keeps the clock valid and the lengths and running flag; away from 0:00 it takes one second and keeps the modality; at 0:00 it flips the modality and loads the other length with 0 seconds |
| `Pomodoro.SetLength` | src/App.js:24-37 | setting a length to a new value during its own modality sets the clock to that length with 0 seconds; editing the inactive length, or setting the same value, leaves the clock alone (the effect runs only on a change); setting the same value changes nothing |
| `Pomodoro.IncrementLength` | src/App.js:64-70 | when stopped and below 60 the length goes up by one (with the re-sync); when running or at 60 nothing changes; lengths stay in [1,60] |
| `Pomodoro.DecrementLength` | src/App.js:73-79 | when stopped and above 1 the length goes down by one (with the re-sync); when running or at 1 nothing changes; lengths stay in [1,60] |
| `Pomodoro.SwitchModality` | src/App.js:101-103 | the modality flips and the clock reloads to the new modality's length with 0 seconds, whatever time was left |
| `Pomodoro.Ticks` | src/App.js:40-51 | any number of ticks keeps the clock valid (never negative, seconds in [0,59]) and the lengths and running flag unchanged |
| `Pomodoro.TicksCountDown` | src/App.js:88-93 | while time is left, n ticks take exactly n seconds off and keep the modality |
| `Pomodoro.IntervalEnds` | src/App.js:85-94 | after exactly remaining+1 ticks the modality has flipped and the other length is loaded with 0 seconds |
| `Pomodoro.FullCycle` | src/App.js:54-61 | a freshly loaded session returns to itself after a full session, a full break and two boundary ticks |
| `App.Timer.constructor` | src/App.js:15-20 | the six cells start at the initial state |
| `App.Timer.SessionLengthEffect` | src/App.js:24-29 | during a session the clock is set to the session length with 0 seconds; otherwise nothing changes |
| `App.Timer.BreakLengthEffect` | src/App.js:32-37 | during a break the clock is set to the break length with 0 seconds; otherwise nothing changes |
| `App.Timer.ModalityEffect` | src/App.js:54-61 | the clock reloads from the active modality's length |
| `App.Timer.ManageTimer` | src/App.js:85-94 | a tick (only while running) yields `Tick` of the old state and keeps the invariant |
| `App.Timer.Increment` | src/App.js:64-70 | the new state is `IncrementLength` of the old one |
| `App.Timer.Decrement` | src/App.js:73-79 | the new state is `DecrementLength` of the old one |
| `App.Timer.ToggleTimer` | src/App.js:97-99 | only the running flag changes, and it is negated |
| `App.Timer.ChangeModality` | src/App.js:101-103 | the new state is `SwitchModality` of the old one |
| `App.Timer.ResetTimer` | src/App.js:105-116 | from any state the result is exactly the initial state: stopped, session, 25:00, lengths 25 and 5 |
| `App.Timer.Display` | src/App.js:128-132 | in every valid state the shown time is five characters "MM:SS" that read back as the minutes and seconds, and the label is "Session" exactly in a session |
| `App.FirstBreak` | src/App.js:40-51 | started from the defaults, the 1501st tick shows a break of 5:00 |
| `ObjApp.SetSessionLength` | src/ObjApp.js:98-105 | the update function is applied to the session length; nothing else changes |
| `ObjApp.SetBreakLength` | src/ObjApp.js:107-114 | the new break length is the update function applied to the session length; nothing else changes |
| `ObjApp.ManageTimerUpdate` | src/ObjApp.js:120-144 | at 0:00 only the modality flips; otherwise the remaining time drops by one second; the clock stays valid |
| `ObjApp.ChangeModalityUpdate` | src/ObjApp.js:156-163 | the result is always a session, whatever the old modality; nothing else changes |
| `ObjApp.SessionLengthEffect` | src/ObjApp.js:27-37 | during a session the clock is set to the session length with 0 seconds; otherwise nothing changes |
| `ObjApp.BreakLengthEffect` | src/ObjApp.js:44-53 | during a break the minutes are set to the break length and the seconds kept; otherwise nothing changes |
| `ObjApp.Timer.constructor` | src/ObjApp.js:16-23 | the record starts at the initial state |
| `ObjApp.Timer.ManageTimer` | src/ObjApp.js:70-78 | the tick updater followed by the modality effect gives the same state as `Pomodoro.Tick`; the invariant (break length in [0,61]) is kept |
| `ObjApp.Timer.Increment` | src/ObjApp.js:81-87 | running or at 60: no change; a session edit behaves as `SetLength`; a break edit sets the break length to session length + 1 and, in a break and only if the value changed, the minutes to it with the seconds kept |
| `ObjApp.Timer.Decrement` | src/ObjApp.js:90-96 | running or at 1: no change; a session edit behaves as `SetLength`; a break edit sets the break length to session length − 1 with the same partial re-sync |
| `ObjApp.Timer.ToggleTimer` | src/ObjApp.js:147-154 | only the running flag changes, and it is negated |
| `ObjApp.Timer.ChangeModality` | src/ObjApp.js:156-163 | always ends in a session; during a session nothing changes; from a break the clock reloads the session length with 0 seconds |
| `ObjApp.Timer.ResetTimer` | src/ObjApp.js:165-181 | the record becomes exactly the initial state |
| `ObjApp.BreakLengthPastMaximum` | src/ObjApp.js:107-114 | from the defaults, 35 session increments and one break increment give a break length of 61 |
| `ObjApp.BreakLengthZero` | src/ObjApp.js:107-114 | from the defaults, 24 session decrements and one break decrement give a break length of 0 |
| `Bckp.Timer.constructor` | Bckp.js:18-23 | the six cells start at the initial state |
| `Bckp.Timer.SessionLengthEffect` | Bckp.js:55-60 | during a session the clock is set to the session length with 0 seconds; otherwise nothing changes |
| `Bckp.Timer.BreakLengthEffect` | Bckp.js:71-76 | during a break the clock is set to the break length with 0 seconds; otherwise nothing changes |
| `Bckp.Timer.ModalityEffect` | Bckp.js:89-96 | the clock reloads from the active modality's length |
| `Bckp.Timer.OnMessage` | Bckp.js:34-46 | "interval:running" runs exactly one `Tick`; "interval:ended" clears only the running flag; any other status changes nothing |
| `Bckp.Timer.ManageTimer` | Bckp.js:120-129 | the new state is `Tick` of the old one, with or without the running flag |
| `Bckp.Timer.ToggleTimer` | Bckp.js:132-139 | when stopped: the flag is set and START is posted; when running: STOP is posted and nothing changes |
| `Bckp.Timer.Increment` | Bckp.js:99-105 | the new state is `IncrementLength` of the old one |
| `Bckp.Timer.Decrement` | Bckp.js:108-114 | the new state is `DecrementLength` of the old one |
| `Bckp.Timer.ChangeModality` | Bckp.js:141-143 | the new state is `SwitchModality` of the old one |
| `Bckp.Timer.ResetTimer` | Bckp.js:145-156 | STOP is posted and the state becomes the initial one except that the running flag is left as it was |
| `Bckp.Timer.Display` | Bckp.js:26-27 | padding the numbers before the component pads them again shows the same as padding once: five characters "MM:SS" that read back as the minutes and seconds |
| `Bckp.StopHandshake` | Bckp.js:40-41 | pausing a running timer and receiving "interval:ended" clears the flag and leaves everything else as it was |
| `TimerDisplay.NatToString` | src/components/Timer.js:2 | `toString` of a number: only digits, one digit exactly below 10, at most two below 100, no leading zero |
| `TimerDisplay.ParseNatToString` | src/components/Timer.js:2 | reading the decimal text of n gives n |
| `TimerDisplay.ToText` | src/components/Timer.js:2 | the text of a number is its decimal text (non-empty digits, reading back as the number); a string is its own text |
| `TimerDisplay.PadStart` | src/components/Timer.js:2 | `padStart`: the result has the target length (or the text's, if longer), ends with the text and is filled on the left |
| `TimerDisplay.PadZero` | src/components/Timer.js:2 | below 10: "0" and the digit; from 10 on: the plain decimal text, not truncated; always at least two digits, exactly two below 100 |
| `TimerDisplay.PadZeroRoundTrip` | src/components/Timer.js:2 | reading the padded text of n as decimal gives n |
| `TimerDisplay.PadZeroIdempotent` | src/components/Timer.js:2 | padding an already padded text changes nothing |
| `TimerDisplay.ClockTextReadsBack` | src/components/Timer.js:7 | two numbers below 100, padded and joined by ':', give five characters "MM:SS" that read back as the two numbers |
| `TimerDisplay.Label` | src/components/Timer.js:6 | the label is "Session" exactly in a session and "Break" exactly in a break |
| `TimerDisplay.Render` | src/components/Timer.js:1-10 | for numbers below 100 the time text is "MM:SS", five characters, reading back as the two numbers |

## Left out

- Audio: the beep played while 0:00 is shown and stopped on reset is a
  foreign call whose number of plays depends on render timing.
- Tick scheduling: the one-shot delays of `src/App.js` and
  `src/ObjApp.js` are not modelled; a tick is a method that requires the
  running flag.
- The worker (`public/worker-timer.js`) is not part of this model: its
  replies are calls of `Bckp.Timer.OnMessage`, so any reply may arrive in
  any state. Its re-arming on a repeated START is not modelled.
- Worker construction, error handler and termination (`Bckp.js:30-52`).
- React scheduling: batching, render order and the effects run once at
  mount (for instance the tick `Bckp.js:62-64` runs at mount); each action
  and the effects it triggers form one atomic step starting from the
  initial values of the state cells. The effects in `src/ObjApp.js` read
  the record of the last render; in the atomic step that record is the
  committed one, so the effects read the state they update.
- The `document.title` writes (`src/ObjApp.js:39-41`, `Bckp.js:66-68`).
- `src/components/Progress.js` (floating-point percentage for the ring),
  `src/components/Controllers.js` and `src/components/TimerOptions.js`
  (markup only).
- JavaScript numbers are modelled as unbounded integers; the state never
  holds a negative or fractional value, so `toString` is modelled on
  natural numbers only.
