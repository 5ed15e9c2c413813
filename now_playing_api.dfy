/**
 * The now-playing endpoint (`GET /api/now-playing`): a read-only proxy that
 * asks the Last.fm "recent tracks" method for the configured user's latest
 * scrobble and answers with a fixed-shape payload, always with status 200.
 *
 * The environment variables and the outbound HTTP call are parameters: the
 * configuration is a record, and the upstream call is a function from the
 * query the endpoint builds to what the call yields (a parsed reply or a
 * thrown failure).
 */
module NowPlayingApi {
  import opened Wrappers
  import opened NowPlayingWire

  const LastFmApi := "https://ws.audioscrobbler.com/2.0/"
  const NotConfiguredMessage := "Last.fm not configured"
  const UpstreamErrorMessage := "Last.fm error"
  const FailedToFetchMessage := "Failed to fetch"
  const UnknownArtist := "Unknown"
  const ExtraLarge := "extralarge"

  /** Every response carries this status and these two headers. */
  const OkStatus := 200
  const ResponseHeaders: seq<(string, string)> := [
    ("Content-Type", "application/json"),
    ("Cache-Control", "s-maxage=60, stale-while-revalidate=30")
  ]

  /** `LAST_FM_API_KEY` and `LAST_FM_USER`, either of which may be unset. */
  datatype Config = Config(apiKey: Option<string>, user: Option<string>)

  /** The upstream URL: an endpoint and its search parameters, in the order they are set. */
  datatype Query = Query(endpoint: string, params: seq<(string, string)>)

  // ---- The upstream reply, typed as the handler's annotation declares it ----

  /** An `artist` or `album` object: `{ "#text"?: string; name?: string }`. */
  datatype NamedText = NamedText(text: Option<string>, name: Option<string>)

  /** One entry of the `image` list: `{ size: string; "#text": string }`. */
  datatype ImageVariant = ImageVariant(size: string, text: string)

  /** The `"@attr"` object: `{ nowplaying?: string }`. */
  datatype TrackAttr = TrackAttr(nowplaying: Option<string>)

  datatype RawTrack = RawTrack(
    name: Option<string>,
    artist: Option<NamedText>,
    album: Option<NamedText>,
    url: Option<string>,
    image: Option<seq<ImageVariant>>,
    attr: Option<TrackAttr>)

  /** `recenttracks.track`: absent, a bare object, or a list of objects. */
  datatype RawTrackField = Missing | Obj(rec: RawTrack) | List(items: seq<RawTrack>)

  datatype RecentTracks = RecentTracks(track: RawTrackField)

  /** `{ error?: number; message?: string; recenttracks?: { track?: … } }`. */
  datatype UpstreamData = UpstreamData(
    error: Option<int>,
    message: Option<string>,
    recenttracks: Option<RecentTracks>)

  /** What awaiting the fetch and the JSON decode yields: a record, or an exception. */
  datatype UpstreamOutcome = Parsed(data: UpstreamData) | Threw

  /** The HTTP envelope: status, headers and the JSON body. */
  datatype HttpResponse = HttpResponse(status: int, headers: seq<(string, string)>, body: Payload)

  // ---- Configuration and query ----

  /** `!(!apiKey || !user)`: both set and non-empty. */
  predicate Configured(c: Config) {
    Truthy(c.apiKey) && Truthy(c.user)
  }

  /** The value a query gives a parameter, if it sets it. */
  function Param(q: Query, key: string): Option<string> {
    ParamIn(q.params, key)
  }

  function ParamIn(ps: seq<(string, string)>, key: string): Option<string> {
    if |ps| == 0 then None
    else if ps[0].0 == key then Some(ps[0].1)
    else ParamIn(ps[1..], key)
  }

  /** The recent-tracks query: one most recent item, as JSON, for the given user and key. */
  function RecentTracksQuery(apiKey: string, user: string): (q: Query)
    ensures q.endpoint == LastFmApi
    ensures Param(q, "method") == Some("user.getRecentTracks")
    ensures Param(q, "user") == Some(user)
    ensures Param(q, "api_key") == Some(apiKey)
    ensures Param(q, "format") == Some("json")
    ensures Param(q, "limit") == Some("1")
  {
    var ps := [
      ("method", "user.getRecentTracks"),
      ("user", user),
      ("api_key", apiKey),
      ("format", "json"),
      ("limit", "1")
    ];
    assert ps[1..][1..] == ps[2..] && ps[2..][1..] == ps[3..] && ps[3..][1..] == ps[4..];
    assert ParamIn(ps, "user") == ParamIn(ps[1..], "user") == Some(user);
    assert ParamIn(ps, "api_key") == ParamIn(ps[1..], "api_key") == ParamIn(ps[2..], "api_key") == Some(apiKey);
    assert ParamIn(ps, "format") == ParamIn(ps[1..], "format") == ParamIn(ps[2..], "format")
        == ParamIn(ps[3..], "format") == Some("json");
    assert ParamIn(ps, "limit") == ParamIn(ps[1..], "limit") == ParamIn(ps[2..], "limit")
        == ParamIn(ps[3..], "limit") == ParamIn(ps[4..], "limit") == Some("1");
    Query(LastFmApi, ps)
  }

  // ---- Normalisation of the reply ----

  /** `data.error` is truthy: present and not 0. */
  predicate ErrorFlagged(d: UpstreamData) {
    d.error.Some? && d.error.value != 0
  }

  /**
   * `Array.isArray(rawTrack) ? rawTrack[0] : rawTrack` on
   * `data.recenttracks?.track`: the bare object, or the first element of the
   * list; nothing when either level is absent or the list is empty.
   */
  function SelectTrack(rt: Option<RecentTracks>): (t: Option<RawTrack>)
    ensures t.Some? <==> rt.Some? && (rt.value.track.Obj? || (rt.value.track.List? && |rt.value.track.items| > 0))
    ensures t.Some? && rt.value.track.Obj? ==> t.value == rt.value.track.rec
    ensures t.Some? && rt.value.track.List? ==> t.value == rt.value.track.items[0]
  {
    if rt.None? then None
    else match rt.value.track
      case Missing => None
      case Obj(rec) => Some(rec)
      case List(items) => if |items| == 0 then None else Some(items[0])
  }

  /**
   * `field?.["#text"] ?? field?.name ?? fallback`: `??` only skips an absent
   * value, so an empty `#text` wins over `name`.
   */
  function ResolveNamed(field: Option<NamedText>, fallback: string): (r: string)
    ensures field.Some? && field.value.text.Some? ==> r == field.value.text.value
    ensures field.Some? && field.value.text.None? && field.value.name.Some? ==> r == field.value.name.value
    ensures field.None? || (field.value.text.None? && field.value.name.None?) ==> r == fallback
  {
    if field.None? then fallback
    else if field.value.text.Some? then field.value.text.value
    else if field.value.name.Some? then field.value.name.value
    else fallback
  }

  /** `k` is the index `Array.prototype.find` stops at when it looks for `size`. */
  predicate IsFirstOfSize(images: seq<ImageVariant>, size: string, k: int) {
    && 0 <= k < |images|
    && images[k].size == size
    && forall j :: 0 <= j < k ==> images[j].size != size
  }

  /** The index of the first entry of the given size, if any. */
  function FindSize(images: seq<ImageVariant>, size: string): (k: Option<nat>)
    ensures k.Some? ==> IsFirstOfSize(images, size, k.value)
    ensures k.None? ==> forall j :: 0 <= j < |images| ==> images[j].size != size
  {
    if |images| == 0 then None
    else if images[0].size == size then Some(0)
    else match FindSize(images[1..], size)
      case None => None
      case Some(k) => Some(k + 1)
  }

  /** The extra-large variant's text, when there is such an entry and its text is not empty. */
  predicate HasExtraLargeText(images: seq<ImageVariant>) {
    exists k :: 0 <= k < |images| && IsFirstOfSize(images, ExtraLarge, k) && images[k].text != ""
  }

  /**
   * The artwork URL: the first "extralarge" entry's text if it is not empty
   * (`||`), else the last entry's text if it is not empty, else `null`.
   */
  function ResolveImage(images: Option<seq<ImageVariant>>): (r: Option<string>)
    ensures r.Some? ==> r.value != ""
    ensures images.None? || images.value == [] ==> r.None?
    ensures images.Some? ==> forall k :: IsFirstOfSize(images.value, ExtraLarge, k) && images.value[k].text != "" ==>
      r == Some(images.value[k].text)
    ensures images.Some? && images.value != [] && !HasExtraLargeText(images.value) ==>
      r == (var last := images.value[|images.value| - 1].text; if last != "" then Some(last) else None)
  {
    if images.None? then None
    else
      var imgs := images.value;
      var extraLarge := match FindSize(imgs, ExtraLarge)
        case Some(k) => Some(imgs[k].text)
        case None => None;
      if Truthy(extraLarge) then extraLarge
      else
        var last := if |imgs| > 0 then Some(imgs[|imgs| - 1].text) else None;
        if Truthy(last) then last else None
  }

  /** `track["@attr"]?.nowplaying === "true"`. */
  predicate IsNowPlaying(attr: Option<TrackAttr>) {
    attr.Some? && attr.value.nowplaying == Some("true")
  }

  /** The `track` object of a successful payload, built from a record with a non-empty name. */
  function NormalizeTrack(t: RawTrack): (r: Track)
    requires Truthy(t.name)
    ensures r.name == t.name.value && r.name != ""
    ensures r.url == t.url && r.liveArtworkUrl.None?
  {
    Track(t.name.value, ResolveNamed(t.artist, UnknownArtist), ResolveNamed(t.album, ""),
          t.url, ResolveImage(t.image), None)
  }

  /** The record the reply selects as "the" track, when it has a usable name. */
  predicate HasUsableTrack(d: UpstreamData) {
    var t := SelectTrack(d.recenttracks);
    t.Some? && Truthy(t.value.name)
  }

  /**
   * The payload for one upstream outcome (the body of the `try` and its
   * `catch`): a thrown failure, an upstream-reported error, no usable track,
   * or a track.
   */
  function Normalize(o: UpstreamOutcome): (r: Payload)
    ensures WellFormed(r)
    ensures r.ok <==> o.Parsed? && !ErrorFlagged(o.data)
    ensures !r.ok ==> r.track.Omitted? && !r.nowPlaying
    ensures o.Threw? ==> r.message == Some(FailedToFetchMessage)
    ensures o.Parsed? && ErrorFlagged(o.data) ==>
      r.message == Some(if Truthy(o.data.message) then o.data.message.value else UpstreamErrorMessage)
    ensures r.ok ==> (r.track.Present? <==> HasUsableTrack(o.data))
    ensures r.ok && !HasUsableTrack(o.data) ==> r == Payload(true, false, Null, None)
  {
    match o
    case Threw => Failure(Omitted, FailedToFetchMessage)
    case Parsed(data) =>
      if ErrorFlagged(data) then
        Failure(Omitted, if Truthy(data.message) then data.message.value else UpstreamErrorMessage)
      else
        var t := SelectTrack(data.recenttracks);
        if t.None? || !Truthy(t.value.name) then Payload(true, false, Null, None)
        else Payload(true, IsNowPlaying(t.value.attr), Present(NormalizeTrack(t.value)), None)
  }

  /**
   * `GET`: check the configuration, and only then call upstream with the
   * recent-tracks query for the configured user and normalise its outcome.
   */
  function Respond(config: Config, fetch: Query -> UpstreamOutcome): (r: HttpResponse)
    ensures r.status == 200 && r.headers == ResponseHeaders
    ensures WellFormed(r.body)
    ensures !Configured(config) ==> r.body == Payload(false, false, Omitted, Some(NotConfiguredMessage))
    ensures Configured(config) ==>
      r.body == Normalize(fetch(RecentTracksQuery(config.apiKey.value, config.user.value)))
  {
    var body :=
      if !Configured(config) then Failure(Omitted, NotConfiguredMessage)
      else Normalize(fetch(RecentTracksQuery(config.apiKey.value, config.user.value)));
    HttpResponse(OkStatus, ResponseHeaders, body)
  }

  // ---- Properties ----

  /** Without configuration the upstream call is never consulted: any two upstreams give the same response. */
  lemma NotConfiguredIgnoresUpstream(config: Config, fetch1: Query -> UpstreamOutcome, fetch2: Query -> UpstreamOutcome)
    requires !Configured(config)
    ensures Respond(config, fetch1) == Respond(config, fetch2)
    ensures !Respond(config, fetch1).body.ok && Respond(config, fetch1).body.track.Omitted?
  {
  }

  /** A one-element list and the bare object it wraps give identical payloads. */
  lemma SingletonListIsObject(error: Option<int>, message: Option<string>, t: RawTrack)
    ensures Normalize(Parsed(UpstreamData(error, message, Some(RecentTracks(List([t]))))))
         == Normalize(Parsed(UpstreamData(error, message, Some(RecentTracks(Obj(t))))))
  {
  }

  /** A longer list is read through its first element only. */
  lemma ListUsesFirstElement(error: Option<int>, message: Option<string>, items: seq<RawTrack>)
    requires |items| > 0
    ensures Normalize(Parsed(UpstreamData(error, message, Some(RecentTracks(List(items))))))
         == Normalize(Parsed(UpstreamData(error, message, Some(RecentTracks(Obj(items[0]))))))
  {
  }

  /** No track at all (either level absent, or an empty list) is the nominal empty state. */
  lemma NoTrackIsEmptyState(d: UpstreamData)
    requires !ErrorFlagged(d)
    requires d.recenttracks.None? || d.recenttracks.value.track.Missing? || d.recenttracks.value.track == List([])
    ensures Normalize(Parsed(d)) == Payload(true, false, Null, None)
  {
  }

  /** `nowPlaying` holds exactly when the selected track's flag is the string "true"; it implies a track. */
  lemma NowPlayingIffFlag(d: UpstreamData)
    requires !ErrorFlagged(d) && HasUsableTrack(d)
    ensures Normalize(Parsed(d)).nowPlaying <==> SelectTrack(d.recenttracks).value.attr == Some(TrackAttr(Some("true")))
    ensures Normalize(Parsed(d)).track.Present?
  {
  }

  /** A track's artist and album follow the `??` chains; its url is passed through. */
  lemma TrackFieldsResolved(d: UpstreamData)
    requires !ErrorFlagged(d) && HasUsableTrack(d)
    ensures var t := SelectTrack(d.recenttracks).value;
            var r := Normalize(Parsed(d)).track.track;
            && r.name == t.name.value
            && r.artist == ResolveNamed(t.artist, UnknownArtist)
            && r.album == ResolveNamed(t.album, "")
            && r.url == t.url
            && r.image == ResolveImage(t.image)
  {
  }
}
