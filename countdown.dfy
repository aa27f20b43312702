/**
 * The countdown screen (`CountdownView`) as values: its state and one function per
 * operation, with the run of the repeating timer from a start to its expiry.
 */
module Countdown {
  import opened Wrappers
  import opened Audio

  /**
   * The screen's `@State` fields. The two text fields are held as what Swift's `Int(_:)` makes
   * of their text (None when the text is not a number); `timer` says whether a scheduled
   * repeating Timer is held.
   */
  datatype State = State(
    timerRunning: bool,
    minutesInput: Option<int>,
    secondsInput: Option<int>,
    timeRemaining: int,
    timer: bool,
    audioPlayer: Player)

  /** The fields' initial values: stopped, "25" and "00" in the text fields, nothing held. */
  const Initial := State(false, Some(25), Some(0), 0, false, NoPlayer)

  /** A Timer is held exactly while the countdown runs. */
  predicate Consistent(s: State) {
    s.timerRunning == s.timer
  }

  /** The duration typed in, in seconds; a field whose text is not a number counts as 0. */
  function Duration(s: State): (d: int)
    ensures s.minutesInput.None? ==> d == s.secondsInput.GetOr(0)
    ensures s.secondsInput.None? ==> d == s.minutesInput.GetOr(0) * 60
    ensures s.minutesInput.None? && s.secondsInput.None? ==> d == 0
    ensures s.minutesInput.Some? && s.secondsInput.Some? ==>
              d == s.minutesInput.value * 60 + s.secondsInput.value
  {
    s.minutesInput.GetOr(0) * 60 + s.secondsInput.GetOr(0)
  }

  /**
   * `startTimer()`: running, with the counter set afresh from the text fields; whatever value
   * a pause left behind is discarded, so a start never resumes.
   */
  function Start(s: State): (r: State)
    requires Consistent(s) && !s.timerRunning
    ensures Consistent(r) && r.timerRunning
    ensures r.timeRemaining == Duration(s)
    ensures r.minutesInput == s.minutesInput && r.secondsInput == s.secondsInput
    ensures r.audioPlayer == s.audioPlayer
  {
    s.(timerRunning := true, timeRemaining := Duration(s), timer := true)
  }

  /** `stopTimer()`, the pause: not running, no Timer held, the counter kept as it is. */
  function Stop(s: State): (r: State)
    ensures Consistent(r) && !r.timerRunning
    ensures r.timeRemaining == s.timeRemaining
    ensures r.minutesInput == s.minutesInput && r.secondsInput == s.secondsInput
    ensures r.audioPlayer == s.audioPlayer
  {
    s.(timerRunning := false, timer := false)
  }

  /** `stopAlarm()`: the player, if any, is stopped but kept. */
  function StopAlarm(s: State): (r: State)
    ensures !Sounding(r.audioPlayer) && r.audioPlayer == StopTrack(s.audioPlayer)
    ensures r.(audioPlayer := s.audioPlayer) == s
  {
    s.(audioPlayer := StopTrack(s.audioPlayer))
  }

  /**
   * `resetTimer()`: whatever the state before, the alarm is silenced, the counter is 0 (not
   * the typed duration) and the countdown is stopped with no Timer held.
   */
  function Reset(s: State): (r: State)
    ensures Consistent(r) && !r.timerRunning && r.timeRemaining == 0
    ensures !Sounding(r.audioPlayer) && r.audioPlayer == StopTrack(s.audioPlayer)
    ensures r.minutesInput == s.minutesInput && r.secondsInput == s.secondsInput
  {
    Stop(StopAlarm(s).(timeRemaining := 0))
  }

  /** `playAlarm()`: the alarm sound, played once (not looping). */
  function PlayAlarm(s: State, alarm: Lookup): (r: State)
    ensures r.audioPlayer == PlayTrack(s.audioPlayer, Alarm, false, alarm)
    ensures alarm == Ready ==> Sounding(r.audioPlayer) && r.audioPlayer.track == Alarm && !r.audioPlayer.looping
    ensures r.(audioPlayer := s.audioPlayer) == s
  {
    s.(audioPlayer := PlayTrack(s.audioPlayer, Alarm, false, alarm))
  }

  /**
   * One firing of the repeating Timer: a positive counter goes down by exactly one and the
   * countdown keeps running; a counter that is already 0 (or below) is not changed, the
   * countdown stops and the alarm is played once.
   */
  function Tick(s: State, alarm: Lookup): (r: State)
    requires Consistent(s) && s.timer
    ensures Consistent(r)
    ensures s.timeRemaining > 0 ==> r.timerRunning && r.timeRemaining == s.timeRemaining - 1 && r.audioPlayer == s.audioPlayer
    ensures s.timeRemaining <= 0 ==>
              !r.timerRunning && r.timeRemaining == s.timeRemaining
              && r.audioPlayer == PlayTrack(s.audioPlayer, Alarm, false, alarm)
    ensures r.minutesInput == s.minutesInput && r.secondsInput == s.secondsInput
  {
    if s.timeRemaining > 0 then s.(timeRemaining := s.timeRemaining - 1) else PlayAlarm(Stop(s), alarm)
  }

  /** The state after `n` seconds: a firing per second while a Timer is held, none after. */
  function Ticks(s: State, n: nat, alarm: Lookup): (r: State)
    requires Consistent(s)
    ensures Consistent(r)
    decreases n
  {
    if n == 0 || !s.timer then s else Ticks(Tick(s, alarm), n - 1, alarm)
  }

  /** How many of those firings found the counter at 0 or below, that is, expired. */
  function Expiries(s: State, n: nat, alarm: Lookup): nat
    requires Consistent(s)
    decreases n
  {
    if n == 0 || !s.timer then 0
    else (if s.timeRemaining > 0 then 0 else 1) + Expiries(Tick(s, alarm), n - 1, alarm)
  }

  /** The state in which the countdown from `s` expires: counter at its floor, stopped, alarm played. */
  function Expired(s: State, alarm: Lookup): State {
    var floor := if s.timeRemaining > 0 then 0 else s.timeRemaining;
    s.(timerRunning := false, timer := false, timeRemaining := floor,
       audioPlayer := PlayTrack(s.audioPlayer, Alarm, false, alarm))
  }

  /**
   * A running countdown with `d` seconds left (a counter at or below 0 counts as 0) steps down
   * by one per second and keeps running for `d` seconds; the next second expires it, exactly
   * once, and later seconds change nothing.
   */
  lemma {:induction false} Run(s: State, n: nat, alarm: Lookup)
    requires Consistent(s) && s.timerRunning
    ensures
      var d := if s.timeRemaining > 0 then s.timeRemaining else 0;
      (n <= d ==> Ticks(s, n, alarm) == s.(timeRemaining := s.timeRemaining - n)
                  && Expiries(s, n, alarm) == 0)
      && (n > d ==> Ticks(s, n, alarm) == Expired(s, alarm) && Expiries(s, n, alarm) == 1)
    decreases n
  {
    if n > 0 {
      var t := Tick(s, alarm);
      if s.timeRemaining > 0 {
        Run(t, n - 1, alarm);
        assert t.(timeRemaining := t.timeRemaining - (n - 1)) == s.(timeRemaining := s.timeRemaining - n);
      } else {
        assert t == Expired(s, alarm);
      }
    }
  }

  /**
   * From a start with typed duration `D`: for `D >= 0` the counter reads `D - n` and stays in
   * `[0, D]` for the first `D` seconds while the countdown keeps running; second `D + 1` stops
   * it at 0 and plays the alarm, once. A duration of 0 or less expires on the first second.
   */
  lemma RunFromStart(s: State, n: nat, alarm: Lookup)
    requires Consistent(s) && !s.timerRunning
    ensures
      var d := Duration(s);
      var t := Ticks(Start(s), n, alarm);
      (0 <= n <= d ==> t.timerRunning && t.timeRemaining == d - n && 0 <= t.timeRemaining <= d
                       && Expiries(Start(s), n, alarm) == 0)
      && (d >= 0 && n > d ==> !t.timerRunning && !t.timer && t.timeRemaining == 0
                              && t.audioPlayer == PlayTrack(s.audioPlayer, Alarm, false, alarm)
                              && Expiries(Start(s), n, alarm) == 1)
      && (d <= 0 && n >= 1 ==> !t.timerRunning && t.timeRemaining == d
                               && t.audioPlayer == PlayTrack(s.audioPlayer, Alarm, false, alarm)
                               && Expiries(Start(s), n, alarm) == 1)
  {
    Run(Start(s), n, alarm);
  }

  /** Typed "1" and "30": ninety seconds later the counter shows 0 and still runs; at 91 it has expired. */
  lemma NinetySeconds(s: State, alarm: Lookup)
    requires Consistent(s) && !s.timerRunning
    requires s.minutesInput == Some(1) && s.secondsInput == Some(30)
    ensures Ticks(Start(s), 90, alarm).timeRemaining == 0 && Ticks(Start(s), 90, alarm).timerRunning
    ensures !Ticks(Start(s), 91, alarm).timerRunning && Expiries(Start(s), 91, alarm) == 1
  {
    RunFromStart(s, 90, alarm);
    RunFromStart(s, 91, alarm);
  }

  /** Text fields that are not numbers give a zero duration, which expires on the first second. */
  lemma UnparsedInputsExpireAtOnce(s: State, alarm: Lookup)
    requires Consistent(s) && !s.timerRunning
    requires s.minutesInput == None && s.secondsInput == None
    ensures !Ticks(Start(s), 1, alarm).timerRunning && Expiries(Start(s), 1, alarm) == 1
  {
    RunFromStart(s, 1, alarm);
  }
}

/** `CountdownView` with its `@State` fields updated in place, one method per function of the view. */
module CountdownScreen {
  import opened Wrappers
  import opened Audio
  import M = Countdown

  class CountdownView {
    var timerRunning: bool
    var minutesInput: Option<int>
    var secondsInput: Option<int>
    var timeRemaining: int
    var timer: bool
    var audioPlayer: Player

    function Snapshot(): M.State
      reads this
    {
      M.State(timerRunning, minutesInput, secondsInput, timeRemaining, timer, audioPlayer)
    }

    predicate Valid()
      reads this
    {
      M.Consistent(Snapshot())
    }

    constructor ()
      ensures Valid() && Snapshot() == M.Initial
    {
      timerRunning := false;
      minutesInput := Some(25);
      secondsInput := Some(0);
      timeRemaining := 0;
      timer := false;
      audioPlayer := NoPlayer;
    }

    method StartTimer()
      requires Valid() && !timerRunning
      modifies this
      ensures Valid() && Snapshot() == M.Start(old(Snapshot()))
    {
      timerRunning := true;
      timeRemaining := minutesInput.GetOr(0) * 60 + secondsInput.GetOr(0);
      timer := true;
    }

    method StopTimer()
      requires Valid()
      modifies this
      ensures Valid() && Snapshot() == M.Stop(old(Snapshot()))
    {
      timerRunning := false;
      timer := false;
    }

    method ResetTimer()
      requires Valid()
      modifies this
      ensures Valid() && Snapshot() == M.Reset(old(Snapshot()))
    {
      StopAlarm();
      timeRemaining := 0;
      timerRunning := false;
      timer := false;
    }

    /** The closure the scheduled Timer runs once per second. */
    method Tick(alarm: Lookup)
      requires Valid() && timer
      modifies this
      ensures Valid() && Snapshot() == M.Tick(old(Snapshot()), alarm)
    {
      if timeRemaining > 0 {
        timeRemaining := timeRemaining - 1;
      } else {
        StopTimer();
        PlayAlarm(alarm);
      }
    }

    method PlayAlarm(alarm: Lookup)
      requires Valid()
      modifies this
      ensures Valid() && Snapshot() == M.PlayAlarm(old(Snapshot()), alarm)
    {
      audioPlayer := PlayTrack(audioPlayer, Alarm, false, alarm);
    }

    method StopAlarm()
      requires Valid()
      modifies this
      ensures Valid() && Snapshot() == M.StopAlarm(old(Snapshot()))
    {
      audioPlayer := StopTrack(audioPlayer);
    }

    /** Typing into the two text fields; the countdown reads them only when it starts. */
    method EditInputs(minutes: Option<int>, seconds: Option<int>)
      requires Valid()
      modifies this
      ensures Valid() && Snapshot() == old(Snapshot()).(minutesInput := minutes, secondsInput := seconds)
    {
      minutesInput := minutes;
      secondsInput := seconds;
    }

    /** The start/pause button. */
    method StartPauseTapped()
      requires Valid()
      modifies this
      ensures Valid() && timerRunning == !old(timerRunning)
      ensures Snapshot() == if old(timerRunning) then M.Stop(old(Snapshot())) else M.Start(old(Snapshot()))
    {
      if timerRunning {
        StopTimer();
      } else {
        StartTimer();
      }
    }

    /** The reset button: `resetTimer()` and then `stopAlarm()` once more. */
    method ResetTapped()
      requires Valid()
      modifies this
      ensures Valid() && Snapshot() == M.StopAlarm(M.Reset(old(Snapshot())))
      ensures !timerRunning && timeRemaining == 0 && !Sounding(audioPlayer)
    {
      ResetTimer();
      StopAlarm();
    }

    /** The view appearing resets it. */
    method OnAppear()
      requires Valid()
      modifies this
      ensures Valid() && Snapshot() == M.Reset(old(Snapshot()))
    {
      ResetTimer();
    }
  }
}
