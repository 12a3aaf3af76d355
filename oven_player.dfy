/** The value types the player component exchanges with its host (src/OvenPlayer.tsx). */
module OvenPlayerTypes {
  import opened Wrappers

  /** `OvenPlayerSourceType` */
  datatype SourceType = WebRtc | LlHls | Hls | LlDash | Dash | Mp4

  /** `OvenPlayerSource`; the file is absent when the URL table had no entry for it. */
  datatype Source = Source(sourceType: SourceType, file: Option<string>)

  /** `OvenPlayerState` */
  datatype PlayerState =
    | Idle | Complete | Paused | Playing | Error | Loading | Stalled
    | AdLoaded | AdPlaying | AdPaused | AdComplete
}
