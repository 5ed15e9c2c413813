/**
 * The now-listening widget: it polls the now-playing endpoint, keeps the
 * latest payload, and renders one of three views (a loading skeleton, a
 * status message, or a track card).
 *
 * Each poll is a fetch that later settles; a settle is one call of
 * `Settle`, and settles may arrive in any order. Unmounting sets the
 * cancellation flag that every later settle consults.
 */
module NowListening {
  import opened Wrappers
  import opened NowPlayingWire

  const JsonContentType := "application/json"
  const NonJsonMessage := "API returned non-JSON (route may not be active)"
  const FetchFailedMessage := "Could not load (fetch failed)"
  const NotConfiguredMessage := "Last.fm not configured"
  const NowListeningLabel := "Now listening"
  const LastListenedLabel := "Last listened to"
  const NoLinkHref := "#"
  const AlbumSeparator := " · "

  // ---- Settling one fetch ----

  /** The body of a response with a JSON content type: it decodes, or `res.json()` throws. */
  datatype Body = Json(payload: Payload) | Undecodable

  /** How one `fetchNowPlaying` call ends: a response (its `content-type` header and body), or a rejected fetch. */
  datatype FetchOutcome = Responded(contentType: Option<string>, body: Body) | Rejected

  /** `sub` occurs in `s` starting at index `i`. */
  predicate OccursAt(s: string, sub: string, i: int) {
    0 <= i && i + |sub| <= |s| && s[i..i + |sub|] == sub
  }

  /** `s.includes(sub)`. */
  function Includes(s: string, sub: string): (b: bool)
    ensures b <==> exists i :: 0 <= i <= |s| - |sub| && OccursAt(s, sub, i)
    decreases |s|
  {
    if |s| < |sub| then false
    else if s[..|sub|] == sub then
      assert OccursAt(s, sub, 0);
      true
    else
      var rest := Includes(s[1..], sub);
      assert rest <==> exists i :: 0 <= i <= |s| - |sub| && OccursAt(s, sub, i) by {
        if rest {
          var j :| 0 <= j <= |s[1..]| - |sub| && OccursAt(s[1..], sub, j);
          assert s[1..][j..j + |sub|] == s[j + 1..j + 1 + |sub|];
          assert OccursAt(s, sub, j + 1);
        } else {
          forall i | 0 <= i <= |s| - |sub| ensures !OccursAt(s, sub, i) {
            if i > 0 {
              assert s[1..][i - 1..i - 1 + |sub|] == s[i..i + |sub|];
              assert !OccursAt(s[1..], sub, i - 1);
            }
          }
        }
      }
      rest
  }

  /** `(res.headers.get("content-type") || "").includes("application/json")`. */
  predicate IsJsonContentType(contentType: Option<string>) {
    Includes(if contentType.Some? then contentType.value else "", JsonContentType)
  }

  /** The placeholder payload the widget stores for a failure it detects itself. */
  function Synthetic(message: string): Payload {
    Failure(Null, message)
  }

  /**
   * The payload a settle stores: the decoded JSON as it is when the content
   * type says JSON, a synthetic payload otherwise.
   */
  function SettledPayload(o: FetchOutcome): (p: Payload)
    ensures o.Responded? && IsJsonContentType(o.contentType) && o.body.Json? ==> p == o.body.payload
    ensures !(o.Responded? && IsJsonContentType(o.contentType) && o.body.Json?) ==>
      && !p.ok && !p.nowPlaying && p.track.Null?
      && (p.message == Some(NonJsonMessage) <==> o.Responded? && !IsJsonContentType(o.contentType))
      && (p.message == Some(FetchFailedMessage) <==> !(o.Responded? && !IsJsonContentType(o.contentType)))
  {
    match o
    case Rejected => Synthetic(FetchFailedMessage)
    case Responded(contentType, body) =>
      if !IsJsonContentType(contentType) then Synthetic(NonJsonMessage)
      else match body
        case Undecodable => Synthetic(FetchFailedMessage)
        case Json(p) => p
  }

  // ---- The component's state ----

  /** `data`, `loading` and the effect's `cancelled` flag. */
  class Widget {
    var data: Option<Payload>
    var loading: bool
    var cancelled: bool

    /** Once loading is over there is always a payload to show. */
    ghost predicate Valid()
      reads this
    {
      !loading ==> data.Some?
    }

    /** Mounting: `useState(null)`, `useState(true)` and `let cancelled = false`. */
    constructor ()
      ensures Valid()
      ensures data == None && loading && !cancelled
      ensures CurrentView() == Skeleton
    {
      data := None;
      loading := true;
      cancelled := false;
    }

    /**
     * One fetch settles. Before unmount it stores the settled payload and
     * ends loading; after unmount it changes nothing.
     */
    method Settle(outcome: FetchOutcome)
      requires Valid()
      modifies this
      ensures Valid()
      ensures cancelled == old(cancelled)
      ensures old(cancelled) ==> data == old(data) && loading == old(loading)
      ensures !old(cancelled) ==> data == Some(SettledPayload(outcome)) && !loading
      ensures !old(loading) ==> !loading
    {
      match outcome {
        case Rejected =>
          if !cancelled {
            data := Some(Synthetic(FetchFailedMessage));
          }
        case Responded(contentType, body) =>
          if !IsJsonContentType(contentType) {
            if !cancelled {
              data := Some(Synthetic(NonJsonMessage));
            }
          } else {
            match body
            case Undecodable =>
              if !cancelled {
                data := Some(Synthetic(FetchFailedMessage));
              }
            case Json(p) =>
              if !cancelled {
                data := Some(p);
              }
          }
      }
      if !cancelled {
        loading := false;
      }
    }

    /** The effect's cleanup on unmount. */
    method Unmount()
      requires Valid()
      modifies this`cancelled
      ensures Valid()
      ensures cancelled && data == old(data) && loading == old(loading)
    {
      cancelled := true;
    }

    /** What the component renders for its current state. */
    function CurrentView(): View
      reads this
    {
      SelectView(loading, data)
    }
  }

  // ---- Rendering ----

  /** The status messages of the "no usable track" box. */
  datatype StatusMessage = ConnectAccountGuidance | NoRecentTracks | Raw(text: string) | NothingToShow

  /** The artwork slot of the track card. */
  datatype Artwork = LiveVideo(src: string) | StaticImage(src: string) | PlaceholderBox

  /** The track card: link target, label, title, "artist · album" line, artwork and blurred backdrop. */
  datatype Card = Card(
    href: string,
    caption: string,
    title: string,
    byline: string,
    artwork: Artwork,
    backdrop: Option<string>)

  datatype View = Skeleton | Status(message: StatusMessage) | TrackCard(card: Card)

  /** `data?.ok && data.track`. */
  predicate HasTrack(data: Option<Payload>) {
    data.Some? && data.value.ok && data.value.track.Present?
  }

  /** The message for a payload without a usable track, by priority. */
  function SelectStatus(data: Option<Payload>): (m: StatusMessage)
    ensures m.ConnectAccountGuidance? <==> data.Some? && data.value.message == Some(NotConfiguredMessage)
    ensures m.NoRecentTracks? <==>
      data.Some? && data.value.message != Some(NotConfiguredMessage) && data.value.ok && !data.value.track.Present?
    ensures m.Raw? ==> data.Some? && Truthy(data.value.message) && m.text == data.value.message.value
    ensures m.NothingToShow? ==> data.None? || !Truthy(data.value.message)
  {
    if data.Some? && data.value.message == Some(NotConfiguredMessage) then ConnectAccountGuidance
    else if data.Some? && data.value.ok && !data.value.track.Present? then NoRecentTracks
    else if data.Some? && Truthy(data.value.message) then Raw(data.value.message.value)
    else NothingToShow
  }

  /** `artist` followed by " · album" when the album is not empty. */
  function Byline(artist: string, album: string): (s: string)
    ensures album == "" ==> s == artist
    ensures album != "" ==>
      && |s| == |artist| + |AlbumSeparator| + |album|
      && s[..|artist|] == artist
      && s[|artist|..|artist| + |AlbumSeparator|] == AlbumSeparator
      && s[|artist| + |AlbumSeparator|..] == album
  {
    artist + (if album != "" then AlbumSeparator + album else "")
  }

  /** Live artwork first, then the static image, then an empty box. */
  function SelectArtwork(t: Track): (a: Artwork)
    ensures a.LiveVideo? <==> Truthy(t.liveArtworkUrl)
    ensures a.LiveVideo? ==> a.src == t.liveArtworkUrl.value
    ensures a.StaticImage? <==> !Truthy(t.liveArtworkUrl) && Truthy(t.image)
    ensures a.StaticImage? ==> a.src == t.image.value
  {
    if Truthy(t.liveArtworkUrl) then LiveVideo(t.liveArtworkUrl.value)
    else if Truthy(t.image) then StaticImage(t.image.value)
    else PlaceholderBox
  }

  function BuildCard(t: Track, nowPlaying: bool): (c: Card)
    ensures c.caption == NowListeningLabel <==> nowPlaying
    ensures !nowPlaying ==> c.caption == LastListenedLabel
    ensures c.href == (if Truthy(t.url) then t.url.value else NoLinkHref)
    ensures c.title == t.name
    ensures c.byline == Byline(t.artist, t.album)
    ensures c.artwork == SelectArtwork(t)
    ensures c.backdrop.Some? <==> Truthy(t.image)
    ensures c.backdrop.Some? ==> c.backdrop == t.image
  {
    Card(
      if Truthy(t.url) then t.url.value else NoLinkHref,
      if nowPlaying then NowListeningLabel else LastListenedLabel,
      t.name,
      Byline(t.artist, t.album),
      SelectArtwork(t),
      if Truthy(t.image) then t.image else None)
  }

  /** The three mutually exclusive render branches. */
  function SelectView(loading: bool, data: Option<Payload>): (v: View)
    ensures v.Skeleton? <==> loading
    ensures v.TrackCard? <==> !loading && HasTrack(data)
    ensures v.Status? ==> v.message == SelectStatus(data)
    ensures v.TrackCard? ==> v.card == BuildCard(data.value.track.track, data.value.nowPlaying)
  {
    if loading then Skeleton
    else if !HasTrack(data) then Status(SelectStatus(data))
    else TrackCard(BuildCard(data.value.track.track, data.value.nowPlaying))
  }

  // ---- Properties ----

  /** A response whose content type is not JSON is never decoded: its body does not matter. */
  lemma NonJsonIgnoresBody(contentType: Option<string>, b1: Body, b2: Body)
    requires !IsJsonContentType(contentType)
    ensures SettledPayload(Responded(contentType, b1)) == SettledPayload(Responded(contentType, b2))
    ensures SettledPayload(Responded(contentType, b1)) == Payload(false, false, Null, Some(NonJsonMessage))
  {
  }

  /** A missing content-type header counts as not JSON. */
  lemma MissingContentTypeIsNotJson()
    ensures !IsJsonContentType(None)
  {
  }

  /** With a JSON content type, the decoded payload replaces the old one wholesale. */
  lemma JsonReplacesWholesale(contentType: Option<string>, p: Payload)
    requires IsJsonContentType(contentType)
    ensures SettledPayload(Responded(contentType, Json(p))) == p
  {
  }

  /**
   * Every failure the widget detects itself shows its message as a status,
   * never a card: "Could not load (fetch failed)" for a rejected fetch or an
   * undecodable JSON body, the non-JSON message otherwise.
   */
  lemma SyntheticShowsStatus(o: FetchOutcome)
    requires o.Rejected? || !IsJsonContentType(o.contentType) || o.body.Undecodable?
    ensures o.Rejected? || (IsJsonContentType(o.contentType) && o.body.Undecodable?) ==>
      SettledPayload(o) == Payload(false, false, Null, Some(FetchFailedMessage))
    ensures o.Responded? && !IsJsonContentType(o.contentType) ==>
      SettledPayload(o) == Payload(false, false, Null, Some(NonJsonMessage))
    ensures var p := SettledPayload(o);
            && Truthy(p.message)
            && SelectView(false, Some(p)) == Status(Raw(p.message.value))
  {
  }

  /** A card is shown only for a payload that has a track, and its label says "Now listening" only while playing. */
  lemma CardLabel(data: Option<Payload>)
    requires HasTrack(data)
    ensures SelectView(false, data).TrackCard?
    ensures SelectView(false, data).card.caption == NowListeningLabel <==> data.value.nowPlaying
  {
  }
}
