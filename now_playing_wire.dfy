/**
 * The JSON contract between the now-playing endpoint and the widget that
 * polls it: the `NowPlayingResponse` and `Track` records.
 */
module NowPlayingWire {
  import opened Wrappers

  /** A track as the widget reads it. The endpoint never sets `liveArtworkUrl`. */
  datatype Track = Track(
    name: string,
    artist: string,
    album: string,
    url: Option<string>,
    image: Option<string>,
    liveArtworkUrl: Option<string>)

  /**
   * The `track` key of a payload: left out of the JSON object altogether,
   * present with the value `null`, or present with a track.
   */
  datatype TrackField = Omitted | Null | Present(track: Track)

  /** `{ ok, nowPlaying, track?, message? }`. */
  datatype Payload = Payload(ok: bool, nowPlaying: bool, track: TrackField, message: Option<string>)

  /** A failure payload: no usable track, never playing, a diagnostic message. */
  function Failure(track: TrackField, message: string): Payload
    requires !track.Present?
  {
    Payload(false, false, track, Some(message))
  }

  /**
   * The invariants every payload the endpoint produces keeps: a failure has
   * no track and says why; playing implies a track; a track has a name;
   * success carries no message.
   */
  predicate WellFormed(p: Payload) {
    && (!p.ok ==> !p.track.Present? && Truthy(p.message))
    && (p.ok ==> p.message.None?)
    && (p.nowPlaying ==> p.ok && p.track.Present?)
    && (p.track.Present? ==> p.track.track.name != "")
  }
}
