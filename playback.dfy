/** Arithmetic the three view models share when they move the playback clock. */
module Playback {

  /** What creating an `AVAudioPlayer` for a file gives: an error, or a player
      and the file's duration in seconds. */
  datatype PlayerLoad = PlayerFails | PlayerLoaded(duration: real)

  /** `max(0, min(duration, current + seconds))`, the clamp in `seekRelative`. */
  function ClampedSeek(current: real, seconds: real, duration: real): (t: real)
    ensures 0.0 <= t
    ensures 0.0 <= duration ==> t <= duration
    ensures 0.0 <= current + seconds <= duration ==> t == current + seconds
    ensures current + seconds < 0.0 ==> t == 0.0
    ensures 0.0 <= duration < current + seconds ==> t == duration
    ensures duration < 0.0 ==> t == 0.0
  {
    var m := if duration <= current + seconds then duration else current + seconds;
    if m >= 0.0 then m else 0.0
  }

  /** `time / duration`, the value published as `playbackProgress`. A Double
      division by zero gives infinity or NaN; the model gives 0 there. */
  function Progress(time: real, duration: real): (p: real)
    ensures duration != 0.0 ==> p * duration == time
  {
    if duration == 0.0 then 0.0 else time / duration
  }
}
