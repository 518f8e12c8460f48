/** What the channel asks of Howler and of the browser's timers, as emitted
    actions, and what it reads back from them. */
module Engine {

  import opened JsValue
  import opened Timers

  /** The id Howler's `play` returns for one play instance. */
  type SoundId = nat

  /** A volume end-point of a fade: silence, or the sound's current `volume()`. */
  datatype Level = Silent | Current

  /** The closures channel.js hands to `setTimeout`. */
  datatype Callback =
    | LoopStart                  // play: start the looped region after `offset`
    | CrossfadeStart             // play: start the crossfade cycle after `offset`
    | RandomFire                 // _setRandomPlayTimer: re-arm, then play once
    | FadeOutFire(sound: SoundId)  // _endFade: fade the instance out
    | PauseResume(sound: SoundId)  // _onEnd: replay after the pause

  datatype Action =
    | Loop(on: bool)
    | PlayRegion(region: string)
    | StopSounds
    | Pause(sound: SoundId)
    | Fade(sound: SoundId, from: Level, to: Level, length: Value)
    | SetTimer(handle: Handle, delay: Value, callback: Callback)
    | ClearTimer(handle: Handle)

  /** What the channel reads back from Howler during one call:
      `duration() * 1000` and `playing()`. */
  datatype Host = Host(durationMs: int, playing: bool)
}
