/**
 * The data shapes delivered by the streams endpoint (src/BamApi.tsx).
 * A stream descriptor carries a quality -> protocol -> URL table; the
 * revisions that only know `streams.main.protocols` are the special case in
 * which the table is read at quality "main".
 */
module BamApi {
  import opened Wrappers
  import opened Assoc

  datatype VideoParams = VideoParams(width: int, height: int, codec: string, framerate: real, bitrate: int)

  datatype AudioParams = AudioParams(channels: int, codec: string, bitrate: int, samplerate: int)

  /** The protocols of `StreamProtocolUrlMap`. */
  datatype Protocol = LlHls | WebRtcUdp | WebRtcTcp

  /**
   * A stream descriptor, generic in the protocol type because the revisions of
   * the front-end disagree on which protocols exist.
   */
  datatype StreamSpec<P> = StreamSpec(
    name: string,
    streams: Assoc<string, Assoc<P, string>>,
    created: string,
    video: VideoParams,
    audio: AudioParams,
    thumbnail: Option<string>)

  /** Stream key -> descriptor, in the order the endpoint delivered them. */
  type StreamMap<P> = Assoc<string, StreamSpec<P>>

  /** The only quality of the `streams.main.protocols` revisions. */
  const MainQuality: string := "main"

  /** `stream.streams[quality]`, read as an empty protocol table when the quality is absent. */
  function ProtocolsAt<P>(s: StreamSpec<P>, quality: string): Assoc<P, string> {
    match Lookup(s.streams, quality)
    case Some(protocols) => protocols
    case None => []
  }

  /** `stream.streams[quality][protocol]`; `None` when either key is absent. */
  function UrlAt<P(==)>(s: StreamSpec<P>, quality: string, p: P): Option<string> {
    Lookup(ProtocolsAt(s, quality), p)
  }
}
