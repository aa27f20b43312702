# Timer screens of time-app, modelled in Dafny

time-app is a four-tab SwiftUI application (`ContentView.swift`). Three of its tabs are timers,
and this project models their state machines:

- **Countdown** (`CountdownView`). The duration is typed into two text fields. It counts down
  once per second. The tick that finds the counter at 0 stops it and plays the alarm once.
- **Stopwatch** (`TimerView`). It counts up with no bound and plays a looping background track.
  The track follows the picker while the stopwatch runs.
- **Pomodoro** (`PomodoroView`). The duration comes from two wheel pickers (0-120 minutes,
  0-59 seconds). A looping alarm starts when the app goes to the background while the timer
  runs, and stops when the app returns to the foreground.
- **The "MM:SS" formatter** `timeString(time:)`. Each of the three views has an identical copy
  (lines 151-155, 279-283, 383-387).

Layout of the project:

- `audio.dfy` (module `Audio`) holds a screen's single `audioPlayer` slot as an abstract
  `Player`. The outcome of looking up and opening a sound file is an input, `Lookup`:
  - `Missing`: `Bundle.main.url` found nothing, so the slot is left as it was.
  - `Unreadable`: `try? AVAudioPlayer(...)` gave nil, so the slot becomes empty.
  - `Ready`: a player was created and started.
- `time_format.dfy` (module `TimeFormat`) models the formatter:
  - Swift's truncating `/` and `%` (`Quot`, `Rem`);
  - `printf`'s `%02d`, including negative values (`Pad2`);
  - `ParseTime`, which reads a displayed string back into seconds.
- `countdown.dfy`, `stopwatch.dfy` and `pomodoro.dfy` each hold two modules:
  - A pure module (`Countdown`, `Stopwatch`, `Pomodoro`). It has a `State` datatype of the
    view's `@State` fields, one function per operation, and lemmas about runs of the timer.
    `Ticks(s, n)` means "n seconds pass": one firing per second while a Timer is held.
  - A class module (`CountdownScreen`, `StopwatchScreen`, `PomodoroScreen`). Its class has the
    view's fields and one method per Swift function, updating those fields in place. Each
    method states its new state as the pure function applied to the old state
    (`Snapshot() == M.Tick(old(Snapshot()))`). The button actions are methods that call the
    others in the order the Swift closures do.
- The held `Timer?` is a boolean `timer`. Every screen keeps the invariant `timerRunning == timer`.

At these points the code may surprise a reader; the model follows the code:

- A countdown expires on the tick *after* the counter reaches 0. A duration of D (D >= 0)
  shows 0 and is still running after D ticks. Tick D+1 stops it and plays the alarm.
- Countdown and Pomodoro `startTimer()` re-read the inputs. A pause followed by a start
  restarts from the inputs; it does not resume. Only the stopwatch resumes.
- Countdown `resetTimer()` sets the counter to 0, not to the typed duration. Pomodoro
  `resetTimer()` restores the picked duration, but nothing in the view ever calls it.
- The countdown's `stopAlarm()` only stops its player. The stopwatch's `stopMusic()` and the
  Pomodoro's `stopAlarm()` also drop it.
- The Pomodoro plays no alarm on expiry. Once expired, going to the background plays nothing.
- The stopwatch's `onAppear` resets the count but leaves the music as it was.

## Model

| member | source | states |
|---|---|---|
| Audio.PlayTrack | ContentView.swift:157-162 | a missing file leaves the player slot unchanged, an unreadable one empties it, otherwise the slot holds the requested track, started, looping as asked |
| Audio.StopTrack | ContentView.swift:164-166 | `stop()` silences the player but keeps it (same track and looping); an empty slot stays empty |
| TimeFormat.Decimal | ContentView.swift:154 | the digit string denotes n, has no leading zero, and has 1, 2 or 3 characters for n below 10, 100 or 1000 |
| TimeFormat.Pad2 | ContentView.swift:154 | `%02d` gives a numeral of value n with no leading zero beyond the padding: n >= 0 is all digits, at least two wide, exactly two below 100 and three from 100 to 999, and starts with a non-zero digit from 10 on; n < 0 is '-' followed by a non-zero digit |
| TimeFormat.Quot | ContentView.swift:152 | Swift's `/` rounds toward zero: for time >= 0, 0 <= q*60 <= time < q*60 + 60; for time < 0, q*60 - 60 < time <= q*60 <= 0 |
| TimeFormat.Rem | ContentView.swift:152-153 | Swift's truncating quotient and remainder satisfy q*60 + r == time; for time >= 0 they equal Euclidean / and % and 0 <= r < 60; for negative time -60 < r <= 0 |
| TimeFormat.TimeString | ContentView.swift:151-155 | for every integer time, negative ones included, reading the display string back gives M*60 + S == time (minutes beyond 32 bits: see Left out) |
| TimeFormat.DisplayShape | ContentView.swift:279-283 | for time >= 0 the display is M ':' S; S is exactly two digits with value time % 60 < 60; M has at least two digits with value time / 60 |
| TimeFormat.PomodoroDisplayWidth | ContentView.swift:383-387 | for 0..7259 seconds the display is 5 characters, or 6 (three-digit minutes such as 120) from 6000 seconds on |
| Countdown.Duration | ContentView.swift:125 | each text field that is not a number counts as 0 on its own (minutes unparsed gives the seconds, seconds unparsed gives minutes*60); with both fields parsed the duration is minutes*60 + seconds |
| Countdown.Start | ContentView.swift:123-126 | running with a Timer held; the counter equals the duration typed now and discards any paused value; inputs and player unchanged |
| Countdown.Stop | ContentView.swift:137-141 | not running, no Timer held, counter, inputs and player unchanged |
| Countdown.StopAlarm | ContentView.swift:164-166 | the player is stopped (not dropped) and nothing else changes |
| Countdown.Reset | ContentView.swift:143-149 | from any state: stopped, no Timer, counter 0, alarm silenced, inputs kept |
| Countdown.PlayAlarm | ContentView.swift:157-162 | the alarm track, played once (not looping) when its file opens; nothing else changes |
| Countdown.Tick | ContentView.swift:127-134 | a positive counter drops by exactly 1 and keeps running; a counter at or below 0 is kept, the countdown stops and the alarm plays once |
| Countdown.Ticks | ContentView.swift:127-134 | any number of seconds of the repeating Timer keeps the screen consistent: a Timer is held exactly while the countdown runs |
| Countdown.Run | ContentView.swift:127-134 | a running countdown with d seconds left reads remaining - n for n <= d with no expiry; every n > d gives the same expired state with exactly one expiry |
| Countdown.RunFromStart | ContentView.swift:123-134 | after a start with duration D >= 0 the counter is D - n in [0, D] and running for n <= D; from tick D+1 it is stopped at 0 having played the alarm exactly once; D <= 0 expires on the first tick |
| Countdown.NinetySeconds | ContentView.swift:123-134 | typed 1:30: after 90 ticks the counter is 0 and still running, after 91 it is stopped with one expiry |
| Countdown.UnparsedInputsExpireAtOnce | ContentView.swift:125-134 | two unparseable fields give duration 0 and the first tick expires |
| CountdownScreen.CountdownView.constructor | ContentView.swift:44-49 | the initial field values: stopped, "25" and "00", counter 0, no Timer, no player |
| CountdownScreen.CountdownView.StartTimer | ContentView.swift:123-135 | updates the fields as Countdown.Start |
| CountdownScreen.CountdownView.StopTimer | ContentView.swift:137-141 | updates the fields as Countdown.Stop |
| CountdownScreen.CountdownView.ResetTimer | ContentView.swift:143-149 | updates the fields as Countdown.Reset |
| CountdownScreen.CountdownView.Tick | ContentView.swift:127-134 | the Timer's closure updates the fields as Countdown.Tick, by calling stopTimer and playAlarm on expiry |
| CountdownScreen.CountdownView.PlayAlarm | ContentView.swift:157-162 | updates the player slot as Countdown.PlayAlarm |
| CountdownScreen.CountdownView.StopAlarm | ContentView.swift:164-166 | updates the player slot as Countdown.StopAlarm |
| CountdownScreen.CountdownView.EditInputs | ContentView.swift:64-81 | typing replaces the parsed text fields and nothing else, even while running |
| CountdownScreen.CountdownView.StartPauseTapped | ContentView.swift:86-92 | the button flips timerRunning; a stop when running, a start otherwise |
| CountdownScreen.CountdownView.ResetTapped | ContentView.swift:103-106 | resetTimer then stopAlarm: stopped, counter 0, nothing sounding |
| CountdownScreen.CountdownView.OnAppear | ContentView.swift:118-120 | appearing resets the screen |
| Stopwatch.Start | ContentView.swift:246-251 | running with a Timer held; the elapsed count is kept, so a start resumes |
| Stopwatch.Stop | ContentView.swift:253-257 | not running, no Timer held, count, selection and music unchanged |
| Stopwatch.Reset | ContentView.swift:259-262 | stopped with the count at 0; selection and music unchanged |
| Stopwatch.Tick | ContentView.swift:248-250 | exactly one more second, still running, nothing else changes |
| Stopwatch.StopMusic | ContentView.swift:274-277 | the slot is empty afterwards whatever it held, so stopping again changes nothing; nothing else changes |
| Stopwatch.PlaySelectedMusic | ContentView.swift:264-272 | the previous track is always dropped; the slot holds nothing or the picked track, looping, and it sounds iff the file opens |
| Stopwatch.SelectMusic | ContentView.swift:239-243 | the selection changes; the music switches to the new track only if the selection changed while running, otherwise the slot is unchanged; the counter is never touched |
| Stopwatch.Ticks | ContentView.swift:248-250 | any number of seconds keeps the screen consistent: the Timer is held iff running, only a picked looping track is ever held |
| Stopwatch.Run | ContentView.swift:248-250 | n seconds add exactly n to the count and the stopwatch is still running: it never expires |
| Stopwatch.PauseResume | ContentView.swift:202-209 | pause silences the music and freezes the count however long it lasts; the next start continues from the paused value with no drift |
| StopwatchScreen.TimerView.constructor | ContentView.swift:171-178 | the initial field values: stopped, count 0, "music1" picked, no player |
| StopwatchScreen.TimerView.StartTimer | ContentView.swift:246-251 | updates the fields as Stopwatch.Start |
| StopwatchScreen.TimerView.StopTimer | ContentView.swift:253-257 | updates the fields as Stopwatch.Stop |
| StopwatchScreen.TimerView.ResetTimer | ContentView.swift:259-262 | stopTimer then zeroes the count, as Stopwatch.Reset |
| StopwatchScreen.TimerView.Tick | ContentView.swift:248-250 | the Timer's closure updates the count as Stopwatch.Tick |
| StopwatchScreen.TimerView.PlaySelectedMusic | ContentView.swift:264-272 | stopMusic then load and play, as Stopwatch.PlaySelectedMusic |
| StopwatchScreen.TimerView.StopMusic | ContentView.swift:274-277 | updates the slot as Stopwatch.StopMusic |
| StopwatchScreen.TimerView.SelectMusic | ContentView.swift:239-243 | the picker and its onChange handler update the fields as Stopwatch.SelectMusic |
| StopwatchScreen.TimerView.StartPauseTapped | ContentView.swift:202-209 | pause is stopTimer then stopMusic; start is startTimer then playSelectedMusic; timerRunning flips |
| StopwatchScreen.TimerView.ResetTapped | ContentView.swift:221-224 | resetTimer then stopMusic: stopped, count 0, no player |
| StopwatchScreen.TimerView.OnAppear | ContentView.swift:236-238 | appearing resets the count and leaves the music |
| Pomodoro.Duration | ContentView.swift:305-321 | the picked duration lies in 0..7259 and its minutes and seconds are exactly the picked values |
| Pomodoro.Start | ContentView.swift:358-368 | running with a Timer held; the counter is the picked duration, not a paused value |
| Pomodoro.Stop | ContentView.swift:370-374 | not running, no Timer held, counter, pickers and player unchanged |
| Pomodoro.Reset | ContentView.swift:376-381 | stopped with the counter back at the picked duration; the player is not touched |
| Pomodoro.Tick | ContentView.swift:361-367 | a positive counter drops by exactly 1 and keeps running; at 0 the timer only stops; the player is never touched |
| Pomodoro.PlayAlarm | ContentView.swift:408-414 | the alarm, looping, when its file opens; nothing else changes |
| Pomodoro.StopAlarm | ContentView.swift:416-419 | the slot is empty afterwards; nothing else changes |
| Pomodoro.EnterBackground | ContentView.swift:398-402 | the looping alarm is played iff the timer is running; when stopped nothing changes; the countdown is never touched |
| Pomodoro.EnterForeground | ContentView.swift:404-406 | the alarm is stopped and dropped unconditionally and the countdown is left as it was |
| Pomodoro.SelectMinutes | ContentView.swift:305-309 | a wheel value in 0..120 becomes the picked minutes; the counter follows only at the next start or reset |
| Pomodoro.SelectSeconds | ContentView.swift:314-318 | a wheel value in 0..59 becomes the picked seconds; the counter follows only at the next start or reset |
| Pomodoro.Ticks | ContentView.swift:361-367 | any number of seconds keeps the counter within 0..7259 and the Timer held iff running |
| Pomodoro.Run | ContentView.swift:361-367 | a running Pomodoro with d seconds left reads d - n for n <= d; any n > d lands stopped at 0 with the player untouched |
| Pomodoro.RunFromStart | ContentView.swift:358-368 | after a start the counter is D - n in [0, D] and running for n <= D; from tick D+1 it is stopped at 0 without an alarm, and going to the background plays nothing |
| Pomodoro.BackgroundForeground | ContentView.swift:398-406 | background then foreground only empties the slot; a running timer with the alarm file present sounds in the background; a stopped one does not |
| PomodoroScreen.PomodoroView.constructor | ContentView.swift:291-296 | the initial field values: stopped, counter 0, 25:00 picked, no Timer, no player |
| PomodoroScreen.PomodoroView.StartTimer | ContentView.swift:358-368 | updates the fields as Pomodoro.Start |
| PomodoroScreen.PomodoroView.StopTimer | ContentView.swift:370-374 | updates the fields as Pomodoro.Stop |
| PomodoroScreen.PomodoroView.ResetTimer | ContentView.swift:376-381 | updates the fields as Pomodoro.Reset |
| PomodoroScreen.PomodoroView.Tick | ContentView.swift:361-367 | the Timer's closure updates the fields as Pomodoro.Tick |
| PomodoroScreen.PomodoroView.AppMovedToBackground | ContentView.swift:398-402 | updates the fields as Pomodoro.EnterBackground |
| PomodoroScreen.PomodoroView.AppMovedToForeground | ContentView.swift:404-406 | updates the fields as Pomodoro.EnterForeground |
| PomodoroScreen.PomodoroView.PlayAlarm | ContentView.swift:408-414 | updates the slot as Pomodoro.PlayAlarm |
| PomodoroScreen.PomodoroView.StopAlarm | ContentView.swift:416-419 | updates the slot as Pomodoro.StopAlarm |
| PomodoroScreen.PomodoroView.SelectMinutes | ContentView.swift:305-309 | updates the picked minutes as Pomodoro.SelectMinutes |
| PomodoroScreen.PomodoroView.SelectSeconds | ContentView.swift:314-318 | updates the picked seconds as Pomodoro.SelectSeconds |
| PomodoroScreen.PomodoroView.StartPauseTapped | ContentView.swift:330-336 | the button flips timerRunning; a stop when running, a start otherwise |

## Left out

- SwiftUI layout, the `TabView`, styling and the `body` properties (ContentView.swift:12-40 and each view's `body`). They are presentational. Button actions appear only as the methods they call.
- `ProfileView`, `EditProfileView` and `ImagePicker` (ContentView.swift:429-600). They are UI glue and UIKit delegates, unrelated to the timers.
- AVFoundation is a foreign API. Players are the abstract `Audio.Player` and file lookup is the `Lookup` input. The model's `playing` flag means "started and not stopped". The end of a one-shot sound's playback is not modelled.
- `setupAudioSession()` (ContentView.swift:389-396) only configures the platform audio session and prints on failure. It is left out.
- `Timer.scheduledTimer`, the run loop and real time are left out. A tick is an explicit call, allowed only while a Timer is held. Timers being suspended while the app is in the background is not modelled.
- The `NotificationCenter` observers (ContentView.swift:349-354) become explicit background and foreground methods. The source adds new observers on every `onAppear`, so one event can run the handler several times. The model runs it once per event.
- `StartTimer` (all three screens) requires that the timer is not running. Its only caller, the start/pause button, calls it only then. Calling it while running would orphan a live Timer, which the single `timer` flag cannot represent.
- Swift's `Int(String)` parser is not modelled. Each text field is held as its parse result, an `Option<int>`, with None for text that is not a number. Negative typed values are allowed.
- TimeString: its round trip is only faithful while the minutes fit in 32 bits. The "%d" conversion is defined for a 32-bit `int`, while the value passed is Swift's 64-bit `Int`. So minutes outside the 32-bit range would print wrongly; only a typed countdown of 2^31 minutes or more reaches them. The model prints them as unbounded integers.
- Pad2: prints any integer in full, with no conversion of the 64-bit `Int` argument to the 32-bit `int` that "%d" reads.
- Swift's `Int` is 64 bits and traps on overflow. The model uses unbounded integers, so a typed duration that would overflow `minutes * 60` is not modelled as a crash.
- Nothing invalidates a running Timer when a view disappears. The model has no teardown either.
