/**
 * The Pomodoro screen (`PomodoroView`) as values: a countdown set from two wheel pickers, and
 * a looping alarm that starts when the app goes to the background while the countdown runs.
 */
module Pomodoro {
  import opened Audio

  /** The screen's `@State` fields; `timer` says whether a scheduled repeating Timer is held. */
  datatype State = State(
    timerRunning: bool,
    timeRemaining: int,
    selectedMinutes: int,
    selectedSeconds: int,
    timer: bool,
    audioPlayer: Player)

  /** The minutes picker offers 0 to 120, the seconds picker 0 to 59. */
  const MaxMinutes := 120
  const MaxSeconds := 59
  /** The longest duration the pickers can set, 120:59. */
  const MaxDuration := MaxMinutes * 60 + MaxSeconds

  /** The fields' initial values: 25 minutes picked, counter 0, stopped, nothing held. */
  const Initial := State(false, 0, 25, 0, false, NoPlayer)

  /** The slot is empty or holds the alarm, looping and playing. */
  predicate AlarmOnly(p: Player) {
    p.NoPlayer? || p == Player(Alarm, true, true)
  }

  /**
   * A Timer is held exactly while the countdown runs, the pickers are within their ranges,
   * the counter lies between 0 and 120:59, and the only sound ever held is the looping alarm.
   */
  predicate Consistent(s: State) {
    s.timerRunning == s.timer
    && 0 <= s.selectedMinutes <= MaxMinutes && 0 <= s.selectedSeconds <= MaxSeconds
    && 0 <= s.timeRemaining <= MaxDuration
    && AlarmOnly(s.audioPlayer)
  }

  /** `selectedMinutes * 60 + selectedSeconds`, which the pickers keep within 0 to 7259 seconds. */
  function Duration(s: State): (d: int)
    requires Consistent(s)
    ensures 0 <= d <= MaxDuration
    ensures d / 60 == s.selectedMinutes && d % 60 == s.selectedSeconds
  {
    s.selectedMinutes * 60 + s.selectedSeconds
  }

  /** `startTimer()`: running, with the counter set afresh from the pickers (no resume). */
  function Start(s: State): (r: State)
    requires Consistent(s) && !s.timerRunning
    ensures Consistent(r) && r.timerRunning
    ensures r.timeRemaining == Duration(s)
    ensures r.selectedMinutes == s.selectedMinutes && r.selectedSeconds == s.selectedSeconds
    ensures r.audioPlayer == s.audioPlayer
  {
    s.(timeRemaining := Duration(s), timerRunning := true, timer := true)
  }

  /** `stopTimer()`, the pause: not running, no Timer held, the counter kept. */
  function Stop(s: State): (r: State)
    requires Consistent(s)
    ensures Consistent(r) && !r.timerRunning
    ensures r.timeRemaining == s.timeRemaining
    ensures r.selectedMinutes == s.selectedMinutes && r.selectedSeconds == s.selectedSeconds
    ensures r.audioPlayer == s.audioPlayer
  {
    s.(timerRunning := false, timer := false)
  }

  /** `resetTimer()`: stopped, with the counter back to the picked duration; the alarm is not touched. */
  function Reset(s: State): (r: State)
    requires Consistent(s)
    ensures Consistent(r) && !r.timerRunning
    ensures r.timeRemaining == Duration(s)
    ensures r.selectedMinutes == s.selectedMinutes && r.selectedSeconds == s.selectedSeconds
    ensures r.audioPlayer == s.audioPlayer
  {
    s.(timeRemaining := Duration(s), timerRunning := false, timer := false)
  }

  /**
   * One firing of the repeating Timer: a positive counter goes down by exactly one; a counter
   * at 0 only stops the countdown. No alarm is played on expiry.
   */
  function Tick(s: State): (r: State)
    requires Consistent(s) && s.timer
    ensures Consistent(r) && r.audioPlayer == s.audioPlayer
    ensures s.timeRemaining > 0 ==> r.timerRunning && r.timeRemaining == s.timeRemaining - 1
    ensures s.timeRemaining == 0 ==> !r.timerRunning && r.timeRemaining == 0
    ensures r.selectedMinutes == s.selectedMinutes && r.selectedSeconds == s.selectedSeconds
  {
    if s.timeRemaining > 0 then s.(timeRemaining := s.timeRemaining - 1) else Stop(s)
  }

  /** `playAlarm()`: the alarm, looping until stopped, if its file opens. */
  function PlayAlarm(s: State, alarm: Lookup): (r: State)
    requires Consistent(s)
    ensures Consistent(r)
    ensures r.audioPlayer == PlayTrack(s.audioPlayer, Alarm, true, alarm)
    ensures alarm == Ready ==> r.audioPlayer == Player(Alarm, true, true)
    ensures r.(audioPlayer := s.audioPlayer) == s
  {
    s.(audioPlayer := PlayTrack(s.audioPlayer, Alarm, true, alarm))
  }

  /** `stopAlarm()`: the slot is emptied, whether or not anything was playing. */
  function StopAlarm(s: State): (r: State)
    requires Consistent(s)
    ensures Consistent(r) && r.audioPlayer == NoPlayer
    ensures r.(audioPlayer := s.audioPlayer) == s
  {
    s.(audioPlayer := NoPlayer)
  }

  /**
   * `appMovedToBackground()`: the looping alarm is played if and only if the countdown is
   * running; otherwise nothing changes. The countdown itself is never touched.
   */
  function EnterBackground(s: State, alarm: Lookup): (r: State)
    requires Consistent(s)
    ensures Consistent(r)
    ensures s.timerRunning ==> r.audioPlayer == PlayTrack(s.audioPlayer, Alarm, true, alarm)
    ensures !s.timerRunning ==> r == s
    ensures r.(audioPlayer := s.audioPlayer) == s
  {
    if s.timerRunning then PlayAlarm(s, alarm) else s
  }

  /**
   * `appMovedToForeground()`: the alarm is stopped and dropped unconditionally, even when
   * nothing plays; the countdown is left exactly as it was.
   */
  function EnterForeground(s: State): (r: State)
    requires Consistent(s)
    ensures Consistent(r) && r.audioPlayer == NoPlayer
    ensures r.(audioPlayer := s.audioPlayer) == s
  {
    StopAlarm(s)
  }

  /** Turning the minutes wheel; the counter follows only at the next start or reset. */
  function SelectMinutes(s: State, minutes: int): (r: State)
    requires Consistent(s) && 0 <= minutes <= MaxMinutes
    ensures Consistent(r) && r.selectedMinutes == minutes
    ensures r.(selectedMinutes := s.selectedMinutes) == s
  {
    s.(selectedMinutes := minutes)
  }

  /** Turning the seconds wheel; the counter follows only at the next start or reset. */
  function SelectSeconds(s: State, seconds: int): (r: State)
    requires Consistent(s) && 0 <= seconds <= MaxSeconds
    ensures Consistent(r) && r.selectedSeconds == seconds
    ensures r.(selectedSeconds := s.selectedSeconds) == s
  {
    s.(selectedSeconds := seconds)
  }

  /** The state after `n` seconds: one firing per second while a Timer is held, none after. */
  function Ticks(s: State, n: nat): (r: State)
    requires Consistent(s)
    ensures Consistent(r)
    decreases n
  {
    if n == 0 || !s.timer then s else Ticks(Tick(s), n - 1)
  }

  /**
   * A running Pomodoro with `d` seconds left counts down by one per second and keeps running
   * for `d` seconds; the next second stops it at 0, and the sound slot is never touched.
   */
  lemma {:induction false} Run(s: State, n: nat)
    requires Consistent(s) && s.timerRunning
    ensures n <= s.timeRemaining ==> Ticks(s, n) == s.(timeRemaining := s.timeRemaining - n)
    ensures n > s.timeRemaining ==> Ticks(s, n) == s.(timerRunning := false, timer := false, timeRemaining := 0)
    decreases n
  {
    if n > 0 {
      if s.timeRemaining > 0 {
        Run(Tick(s), n - 1);
      }
    }
  }

  /**
   * From a start with picked duration `D`: for the first `D` seconds the counter reads `D - n`,
   * within `[0, D]`, and runs; from second `D + 1` on it is stopped at 0 with the sound slot as
   * it was, and going to the background then plays nothing.
   */
  lemma RunFromStart(s: State, n: nat, alarm: Lookup)
    requires Consistent(s) && !s.timerRunning
    ensures
      var d := Duration(s);
      var t := Ticks(Start(s), n);
      (n <= d ==> t.timerRunning && t.timeRemaining == d - n && 0 <= t.timeRemaining <= d)
      && (n > d ==> !t.timerRunning && !t.timer && t.timeRemaining == 0
                    && t.audioPlayer == s.audioPlayer && EnterBackground(t, alarm) == t)
  {
    Run(Start(s), n);
  }

  /**
   * Background then foreground while running leaves the countdown as it was and the slot
   * empty; while stopped, the same round trip only empties the slot.
   */
  lemma BackgroundForeground(s: State, alarm: Lookup)
    requires Consistent(s)
    ensures EnterForeground(EnterBackground(s, alarm)) == s.(audioPlayer := NoPlayer)
    ensures s.timerRunning && alarm == Ready ==> Sounding(EnterBackground(s, alarm).audioPlayer)
    ensures !s.timerRunning ==> EnterBackground(s, alarm).audioPlayer == s.audioPlayer
  {
  }
}

/** `PomodoroView` with its `@State` fields updated in place. */
module PomodoroScreen {
  import opened Audio
  import M = Pomodoro

  class PomodoroView {
    var timerRunning: bool
    var timeRemaining: int
    var selectedMinutes: int
    var selectedSeconds: int
    var timer: bool
    var audioPlayer: Player

    function Snapshot(): M.State
      reads this
    {
      M.State(timerRunning, timeRemaining, selectedMinutes, selectedSeconds, timer, audioPlayer)
    }

    predicate Valid()
      reads this
    {
      M.Consistent(Snapshot())
    }

    constructor ()
      ensures Valid() && Snapshot() == M.Initial
    {
      timerRunning := false;
      timeRemaining := 0;
      selectedMinutes := 25;
      selectedSeconds := 0;
      timer := false;
      audioPlayer := NoPlayer;
    }

    method StartTimer()
      requires Valid() && !timerRunning
      modifies this
      ensures Valid() && Snapshot() == M.Start(old(Snapshot()))
    {
      timeRemaining := selectedMinutes * 60 + selectedSeconds;
      timerRunning := true;
      timer := true;
    }

    method StopTimer()
      requires Valid()
      modifies this
      ensures Valid() && Snapshot() == M.Stop(old(Snapshot()))
    {
      timerRunning := false;
      timer := false;
    }

    method ResetTimer()
      requires Valid()
      modifies this
      ensures Valid() && Snapshot() == M.Reset(old(Snapshot()))
    {
      timeRemaining := selectedMinutes * 60 + selectedSeconds;
      timerRunning := false;
      timer := false;
    }

    /** The closure the scheduled Timer runs once per second. */
    method Tick()
      requires Valid() && timer
      modifies this
      ensures Valid() && Snapshot() == M.Tick(old(Snapshot()))
    {
      if timeRemaining > 0 {
        timeRemaining := timeRemaining - 1;
      } else {
        StopTimer();
      }
    }

    method AppMovedToBackground(alarm: Lookup)
      requires Valid()
      modifies this
      ensures Valid() && Snapshot() == M.EnterBackground(old(Snapshot()), alarm)
    {
      if timerRunning {
        PlayAlarm(alarm);
      }
    }

    method AppMovedToForeground()
      requires Valid()
      modifies this
      ensures Valid() && Snapshot() == M.EnterForeground(old(Snapshot()))
    {
      StopAlarm();
    }

    method PlayAlarm(alarm: Lookup)
      requires Valid()
      modifies this
      ensures Valid() && Snapshot() == M.PlayAlarm(old(Snapshot()), alarm)
    {
      audioPlayer := PlayTrack(audioPlayer, Alarm, true, alarm);
    }

    method StopAlarm()
      requires Valid()
      modifies this
      ensures Valid() && Snapshot() == M.StopAlarm(old(Snapshot()))
    {
      audioPlayer := NoPlayer;
    }

    method SelectMinutes(minutes: int)
      requires Valid() && 0 <= minutes <= M.MaxMinutes
      modifies this
      ensures Valid() && Snapshot() == M.SelectMinutes(old(Snapshot()), minutes)
    {
      selectedMinutes := minutes;
    }

    method SelectSeconds(seconds: int)
      requires Valid() && 0 <= seconds <= M.MaxSeconds
      modifies this
      ensures Valid() && Snapshot() == M.SelectSeconds(old(Snapshot()), seconds)
    {
      selectedSeconds := seconds;
    }

    /** The start/pause button. */
    method StartPauseTapped()
      requires Valid()
      modifies this
      ensures Valid() && timerRunning == !old(timerRunning)
      ensures Snapshot() == if old(timerRunning) then M.Stop(old(Snapshot())) else M.Start(old(Snapshot()))
    {
      if timerRunning {
        StopTimer();
      } else {
        StartTimer();
      }
    }
  }
}
