/**
 * The stopwatch screen (`TimerView`) as values: an elapsed-seconds counter with no bound and
 * no expiry, and a looping background track that follows the track picker while running.
 */
module Stopwatch {
  import opened Audio

  /** The screen's `@State` fields; `timer` says whether a scheduled repeating Timer is held. */
  datatype State = State(
    timerRunning: bool,
    timeElapsed: nat,
    timer: bool,
    selectedMusic: string,
    audioPlayer: Player)

  /** The tracks the picker offers. */
  const MusicOptions: seq<string> := ["music1", "music2", "music3"]

  const Initial := State(false, 0, false, "music1", NoPlayer)

  /** The slot is empty or holds a picked track, looping and playing. */
  predicate MusicOnly(p: Player) {
    p.NoPlayer? || (p.track.Music? && p.track.name in MusicOptions && p.looping && p.playing)
  }

  /**
   * A Timer is held exactly while the stopwatch runs, the picker shows one of its options, and
   * the screen never holds anything but one of those tracks, looping.
   */
  predicate Consistent(s: State) {
    s.timerRunning == s.timer && s.selectedMusic in MusicOptions && MusicOnly(s.audioPlayer)
  }

  /** `startTimer()`: running; the elapsed count is left alone, so a start resumes. */
  function Start(s: State): (r: State)
    requires Consistent(s) && !s.timerRunning
    ensures Consistent(r) && r.timerRunning
    ensures r.timeElapsed == s.timeElapsed
    ensures r.selectedMusic == s.selectedMusic && r.audioPlayer == s.audioPlayer
  {
    s.(timerRunning := true, timer := true)
  }

  /** `stopTimer()`: not running, no Timer held, the elapsed count kept. */
  function Stop(s: State): (r: State)
    requires Consistent(s)
    ensures Consistent(r) && !r.timerRunning
    ensures r.timeElapsed == s.timeElapsed
    ensures r.selectedMusic == s.selectedMusic && r.audioPlayer == s.audioPlayer
  {
    s.(timerRunning := false, timer := false)
  }

  /** `resetTimer()`: stopped, with the count back to 0; the music is not touched. */
  function Reset(s: State): (r: State)
    requires Consistent(s)
    ensures Consistent(r) && !r.timerRunning && r.timeElapsed == 0
    ensures r.selectedMusic == s.selectedMusic && r.audioPlayer == s.audioPlayer
  {
    Stop(s).(timeElapsed := 0)
  }

  /** One firing of the repeating Timer: exactly one more second, nothing else. */
  function Tick(s: State): (r: State)
    requires Consistent(s) && s.timer
    ensures Consistent(r) && r.timerRunning
    ensures r.timeElapsed == s.timeElapsed + 1
    ensures r.(timeElapsed := s.timeElapsed) == s
  {
    s.(timeElapsed := s.timeElapsed + 1)
  }

  /** `stopMusic()`: the slot is emptied, whether or not anything was playing. */
  function StopMusic(s: State): (r: State)
    requires Consistent(s)
    ensures Consistent(r) && r.audioPlayer == NoPlayer && !Sounding(r.audioPlayer)
    ensures r.(audioPlayer := s.audioPlayer) == s
  {
    s.(audioPlayer := NoPlayer)
  }

  /**
   * `playSelectedMusic()`: the current track is stopped and dropped first; then the picked
   * track plays, looping, if its file opens. Whatever was playing before is gone either way.
   */
  function PlaySelectedMusic(s: State, lookup: Lookup): (r: State)
    requires Consistent(s)
    ensures Consistent(r)
    ensures r.audioPlayer == PlayTrack(NoPlayer, Music(s.selectedMusic), true, lookup)
    ensures r.audioPlayer.NoPlayer? || r.audioPlayer == Player(Music(s.selectedMusic), true, true)
    ensures lookup == Ready <==> Sounding(r.audioPlayer)
    ensures r.(audioPlayer := s.audioPlayer) == s
  {
    StopMusic(s).(audioPlayer := PlayTrack(NoPlayer, Music(s.selectedMusic), true, lookup))
  }

  /**
   * Picking a track: the selection changes; if it did change (SwiftUI's `onChange` fires only
   * then) and the stopwatch is running, the new track replaces the old one. Otherwise the
   * music is not touched.
   */
  function SelectMusic(s: State, name: string, lookup: Lookup): (r: State)
    requires Consistent(s) && name in MusicOptions
    ensures Consistent(r) && r.selectedMusic == name
    ensures r.timerRunning == s.timerRunning && r.timer == s.timer && r.timeElapsed == s.timeElapsed
    ensures name != s.selectedMusic && s.timerRunning ==>
              r.audioPlayer == PlayTrack(NoPlayer, Music(name), true, lookup)
    ensures name == s.selectedMusic || !s.timerRunning ==> r.audioPlayer == s.audioPlayer
  {
    var picked := s.(selectedMusic := name);
    if name != s.selectedMusic && s.timerRunning then PlaySelectedMusic(picked, lookup) else picked
  }

  /** The state after `n` seconds: one firing per second while a Timer is held, none after. */
  function Ticks(s: State, n: nat): (r: State)
    requires Consistent(s)
    ensures Consistent(r)
    decreases n
  {
    if n == 0 || !s.timer then s else Ticks(Tick(s), n - 1)
  }

  /** A running stopwatch counts up by exactly `n` in `n` seconds and never stops by itself. */
  lemma {:induction false} Run(s: State, n: nat)
    requires Consistent(s) && s.timerRunning
    ensures Ticks(s, n) == s.(timeElapsed := s.timeElapsed + n)
    ensures Ticks(s, n).timerRunning
    decreases n
  {
    if n > 0 {
      Run(Tick(s), n - 1);
    }
  }

  /**
   * Pause and then start again with the start/pause button, after `a` and before `b` running
   * seconds: the pause silences the music and freezes the count however long it lasts, and
   * the restart continues from the exact paused value.
   */
  lemma PauseResume(s: State, a: nat, idle: nat, b: nat, lookup: Lookup)
    requires Consistent(s) && s.timerRunning
    ensures
      var paused := StopMusic(Stop(Ticks(s, a)));
      !paused.timerRunning && paused.audioPlayer == NoPlayer
      && paused.timeElapsed == s.timeElapsed + a && Ticks(paused, idle) == paused
      && Ticks(PlaySelectedMusic(Start(paused), lookup), b).timeElapsed == s.timeElapsed + a + b
  {
    Run(s, a);
    var paused := StopMusic(Stop(Ticks(s, a)));
    Run(PlaySelectedMusic(Start(paused), lookup), b);
  }
}

/** `TimerView` with its `@State` fields updated in place. */
module StopwatchScreen {
  import opened Audio
  import M = Stopwatch

  class TimerView {
    var timerRunning: bool
    var timeElapsed: nat
    var timer: bool
    var selectedMusic: string
    var audioPlayer: Player

    function Snapshot(): M.State
      reads this
    {
      M.State(timerRunning, timeElapsed, timer, selectedMusic, audioPlayer)
    }

    predicate Valid()
      reads this
    {
      M.Consistent(Snapshot())
    }

    constructor ()
      ensures Valid() && Snapshot() == M.Initial
    {
      timerRunning := false;
      timeElapsed := 0;
      timer := false;
      selectedMusic := "music1";
      audioPlayer := NoPlayer;
    }

    method StartTimer()
      requires Valid() && !timerRunning
      modifies this
      ensures Valid() && Snapshot() == M.Start(old(Snapshot()))
    {
      timerRunning := true;
      timer := true;
    }

    method StopTimer()
      requires Valid()
      modifies this
      ensures Valid() && Snapshot() == M.Stop(old(Snapshot()))
    {
      timerRunning := false;
      timer := false;
    }

    method ResetTimer()
      requires Valid()
      modifies this
      ensures Valid() && Snapshot() == M.Reset(old(Snapshot()))
    {
      StopTimer();
      timeElapsed := 0;
    }

    /** The closure the scheduled Timer runs once per second. */
    method Tick()
      requires Valid() && timer
      modifies this
      ensures Valid() && Snapshot() == M.Tick(old(Snapshot()))
    {
      timeElapsed := timeElapsed + 1;
    }

    method PlaySelectedMusic(lookup: Lookup)
      requires Valid()
      modifies this
      ensures Valid() && Snapshot() == M.PlaySelectedMusic(old(Snapshot()), lookup)
    {
      StopMusic();
      audioPlayer := PlayTrack(audioPlayer, Music(selectedMusic), true, lookup);
    }

    method StopMusic()
      requires Valid()
      modifies this
      ensures Valid() && Snapshot() == M.StopMusic(old(Snapshot()))
    {
      audioPlayer := NoPlayer;
    }

    /** The picker's binding followed by the `onChange(of: selectedMusic)` handler. */
    method SelectMusic(name: string, lookup: Lookup)
      requires Valid() && name in M.MusicOptions
      modifies this
      ensures Valid() && Snapshot() == M.SelectMusic(old(Snapshot()), name, lookup)
    {
      var changed := name != selectedMusic;
      selectedMusic := name;
      if changed && timerRunning {
        PlaySelectedMusic(lookup);
      }
    }

    /** The start/pause button: pause stops the music too, start plays the picked track. */
    method StartPauseTapped(lookup: Lookup)
      requires Valid()
      modifies this
      ensures Valid() && timerRunning == !old(timerRunning)
      ensures Snapshot() == if old(timerRunning) then M.StopMusic(M.Stop(old(Snapshot())))
                            else M.PlaySelectedMusic(M.Start(old(Snapshot())), lookup)
    {
      if timerRunning {
        StopTimer();
        StopMusic();
      } else {
        StartTimer();
        PlaySelectedMusic(lookup);
      }
    }

    /** The reset button: `resetTimer()` and then `stopMusic()`. */
    method ResetTapped()
      requires Valid()
      modifies this
      ensures Valid() && Snapshot() == M.StopMusic(M.Reset(old(Snapshot())))
      ensures !timerRunning && timeElapsed == 0 && audioPlayer == NoPlayer
    {
      ResetTimer();
      StopMusic();
    }

    /** The view appearing resets the count; it leaves the music as it was. */
    method OnAppear()
      requires Valid()
      modifies this
      ensures Valid() && Snapshot() == M.Reset(old(Snapshot()))
    {
      ResetTimer();
    }
  }
}
