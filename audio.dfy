/**
 * The single `audioPlayer: AVAudioPlayer?` slot that each timer screen owns, as an abstract
 * state. Loading a sound file is an outside effect, so its outcome is an input (`Lookup`).
 */
module Audio {

  /** The bundled sounds: `alarm.m4a`, and `music/<name>.m4a` for the stopwatch's tracks. */
  datatype Track = Alarm | Music(name: string)

  /**
   * What happens when a screen asks for a track: `Bundle.main.url` finds no file (Missing),
   * the file is found but `try? AVAudioPlayer(contentsOf:)` yields nil (Unreadable), or a
   * player is created (Ready).
   */
  datatype Lookup = Missing | Unreadable | Ready

  /** The slot: no player object, or one for `track` that loops forever or plays once. */
  datatype Player = NoPlayer | Player(track: Track, looping: bool, playing: bool)

  /** The slot holds a player that has been started and not stopped. */
  predicate Sounding(p: Player) {
    p.Player? && p.playing
  }

  /**
   * Asking for a track: when the file is not found the slot is left as it was; when it is
   * found but cannot be opened the slot becomes empty; otherwise the slot holds a new player
   * for `track`, set to loop or not, and started. The slot holds one player, so the previous
   * one is never heard beside the new one.
   */
  function PlayTrack(current: Player, track: Track, looping: bool, lookup: Lookup): (r: Player)
    ensures lookup == Missing ==> r == current
    ensures lookup == Unreadable ==> r == NoPlayer
    ensures lookup == Ready ==> Sounding(r) && r.track == track && r.looping == looping
  {
    match lookup
    case Missing => current
    case Unreadable => NoPlayer
    case Ready => Player(track, looping, true)
  }

  /** Stopping: the player object stays in the slot, silent; an empty slot stays empty. */
  function StopTrack(p: Player): (r: Player)
    ensures !Sounding(r)
    ensures r.NoPlayer? <==> p.NoPlayer?
    ensures r.Player? ==> r.track == p.track && r.looping == p.looping
  {
    match p
    case NoPlayer => NoPlayer
    case Player(t, l, _) => Player(t, l, false)
  }
}
