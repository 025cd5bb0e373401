/** The background music player's state machine: play, mute and volume. The
    audio element is abstracted to the volume it is told to use and to the
    outcome of a play request. */
module MusicPlayer {

  datatype Audio = Audio(isPlaying: bool, volume: real, isMuted: bool)

  /** The component's initial state for its `autoPlay` and `initialVolume` props. */
  function Init(autoPlay: bool, initialVolume: real): (a: Audio)
    ensures a.isPlaying == autoPlay && a.volume == initialVolume && !a.isMuted
  {
    Audio(autoPlay, initialVolume, false)
  }

  /** `togglePlay`. */
  function TogglePlay(a: Audio): (a': Audio)
    ensures a'.isPlaying != a.isPlaying
    ensures a'.volume == a.volume && a'.isMuted == a.isMuted
  {
    a.(isPlaying := !a.isPlaying)
  }

  /** `toggleMute`. */
  function ToggleMute(a: Audio): (a': Audio)
    ensures a'.isMuted != a.isMuted
    ensures a'.volume == a.volume && a'.isPlaying == a.isPlaying
  {
    a.(isMuted := !a.isMuted)
  }

  /** `handleVolumeChange`: the slider's value becomes the volume; a positive
      value also unmutes, a zero value leaves the mute flag as it was. */
  function VolumeChange(a: Audio, v: real): (a': Audio)
    ensures a'.volume == v && a'.isPlaying == a.isPlaying
    ensures v > 0.0 ==> !a'.isMuted
    ensures v <= 0.0 ==> a'.isMuted == a.isMuted
  {
    if v > 0.0 && a.isMuted then Audio(a.isPlaying, v, false) else a.(volume := v)
  }

  /** A rejected `play()` promise sets the state back to not playing. */
  function PlayRejected(a: Audio): (a': Audio)
    ensures !a'.isPlaying && a'.volume == a.volume && a'.isMuted == a.isMuted
  {
    a.(isPlaying := false)
  }

  /** The volume the effect gives the audio element. */
  function AppliedVolume(a: Audio): real {
    if a.isMuted then 0.0 else a.volume
  }

  /** The value the slider shows. */
  function SliderValue(a: Audio): real {
    if a.isMuted then 0.0 else a.volume
  }

  /** Whether the mute button shows the crossed-out speaker. */
  predicate ShowsMutedIcon(a: Audio) {
    a.isMuted || a.volume == 0.0
  }

  /** The player renders only for a non-empty `audioUrl`. */
  predicate Renders(audioUrl: string) {
    audioUrl != ""
  }

  /** The slider shows what the audio element plays at, and the crossed-out
      icon appears exactly when that is silence. */
  lemma SliderShowsAppliedVolume(a: Audio)
    ensures SliderValue(a) == AppliedVolume(a)
    ensures ShowsMutedIcon(a) <==> AppliedVolume(a) == 0.0
  {
  }

  /** Each toggle undoes itself, and neither disturbs the other flag. */
  lemma TogglesAreInvolutions(a: Audio)
    ensures TogglePlay(TogglePlay(a)) == a && ToggleMute(ToggleMute(a)) == a
    ensures ToggleMute(TogglePlay(a)) == TogglePlay(ToggleMute(a))
  {
  }

  /** Moving the slider to a positive value makes that value audible, even
      when muted; moving it to 0 silences the player without changing the
      mute flag. */
  lemma VolumeChangeAudible(a: Audio, v: real)
    ensures v > 0.0 ==> AppliedVolume(VolumeChange(a, v)) == v
    ensures AppliedVolume(VolumeChange(a, 0.0)) == 0.0
  {
  }

  /** A fresh player plays at its initial volume. */
  lemma InitAudible(autoPlay: bool, v: real)
    ensures AppliedVolume(Init(autoPlay, v)) == v
  {
  }
}
