# Portfolio site: now-playing proxy, listening widget and page state, in Dafny

This project models the logic of a personal portfolio site. Almost all of the
site is markup; these four pieces hold real logic:

- **The now-playing endpoint** (`GET /api/now-playing`, module `NowPlayingApi`).
  It first checks that the Last.fm API key and user are configured. If so, it
  asks the Last.fm `user.getRecentTracks` method for the latest scrobble. It
  then normalises the reply: the `track` field may be a bare object or a list,
  and the artist, album and image fields are optional. The result is a
  fixed-shape payload, always sent with status 200 and the same two headers.
  The handler is the pure function `Respond(config, fetch)`. The environment
  variables are a `Config` record. The outbound call is a function from the
  query the endpoint builds to an `UpstreamOutcome`: a parsed reply, or a
  thrown failure from the fetch or the JSON decode. The shared JSON contract is
  in `NowPlayingWire`. Its `TrackField` says whether the `track` key is left out
  of the object, set to `null`, or holds a track.
- **The listening widget** (module `NowListening`). The class `Widget` holds the
  component's `data`, `loading` and `cancelled` state. `Settle` is one call of
  `fetchNowPlaying` ending, and `Unmount` is the effect's cleanup. Settles may
  arrive in any order. The pure function `SelectView` picks the skeleton, the
  status message or the track card.
- **The project details page** (module `ProjectDetails`). It looks the route's
  slug up in the project list, links to the neighbouring projects with
  wrap-around, and shows the first external link and the snapshot figures.
- **The home page state** (module `HomePage`). It covers the flipped-card set
  toggle, the rotation of the hero phrase and greeting indices, and the
  idle/glitch1/glitch2 cycle of the hero name.

Module `EndToEnd` connects the endpoint and the widget: what the widget shows
once it has stored a payload the endpoint served.

Three details of the code's behaviour are easy to misread, and the model keeps them as written:

- The three error payloads of the endpoint have no `track` key at all, not
  `track: null`. Of the failure payloads, only the widget's own placeholders
  carry `track: null`; the endpoint's no-track success payload also does.
- An API key or user that is set but empty counts as not configured, like an
  unset one, because the check is on truthiness.
- The image falls back to the last entry's text in two cases: when there is no
  `extralarge` entry, and when that entry's text is empty. The `||` operator
  skips empty strings. Under `??`, an empty artist or album `#text` is kept.

## Model

| member | source | states |
|---|---|---|
| `NowPlayingApi.Respond` | api/now-playing.ts:3-107 | every response has status 200 and the JSON content-type and cache headers; the body is well formed; without a non-empty key and user the body is `{ok:false, nowPlaying:false, message:"Last.fm not configured"}` with no track key; otherwise it is the normalised outcome of the recent-tracks query for the configured key and user |
| `NowPlayingApi.NotConfiguredIgnoresUpstream` | api/now-playing.ts:12-21 | when not configured, the upstream is never consulted: any two upstream behaviours give the same response, a failure without a track key |
| `NowPlayingApi.RecentTracksQuery` | api/now-playing.ts:24-29 | the query targets the Last.fm endpoint with method `user.getRecentTracks`, the given user and key, format `json` and limit `1` |
| `NowPlayingApi.Normalize` | api/now-playing.ts:56-106 | the result is well formed; `ok` holds exactly when the reply parsed and its `error` is not truthy; a thrown failure gives "Failed to fetch"; an upstream error gives its non-empty message or "Last.fm error"; failures have no track key and are not playing; a successful payload has a track exactly when the selected record has a non-empty name, and otherwise is `{ok:true, nowPlaying:false, track:null}` with no message |
| `NowPlayingApi.SelectTrack` | api/now-playing.ts:67-69 | a track is selected exactly when `recenttracks` is present and `track` is an object or a non-empty list; it is the object itself or the list's first element |
| `NowPlayingApi.SingletonListIsObject` | api/now-playing.ts:67-69 | a one-element track list and the bare object it wraps give identical payloads |
| `NowPlayingApi.ListUsesFirstElement` | api/now-playing.ts:68-69 | a longer list gives the same payload as its first element alone |
| `NowPlayingApi.NoTrackIsEmptyState` | api/now-playing.ts:68-75 | with no error, an absent `recenttracks` or `track`, or an empty list, gives `{ok:true, nowPlaying:false, track:null}` |
| `NowPlayingApi.NowPlayingIffFlag` | api/now-playing.ts:77-85 | for a usable track, `nowPlaying` holds exactly when `@attr.nowplaying` is the string "true", and the payload then has a track |
| `NowPlayingApi.ResolveNamed` | api/now-playing.ts:88-89 | `#text` is used whenever present, even if empty; otherwise `name` is used if present; otherwise the default |
| `NowPlayingApi.FindSize` | api/now-playing.ts:79 | the index found is the first entry of the requested size; none is found only when no entry has that size |
| `NowPlayingApi.ResolveImage` | api/now-playing.ts:78-91 | the image is never an empty string; an absent or empty list gives null; the first extralarge entry's text wins when it is non-empty; otherwise the last entry's text is used when it is non-empty, and null when it is empty |
| `NowPlayingApi.NormalizeTrack` | api/now-playing.ts:86-92 | the track keeps the non-empty upstream name and passes the url through unchanged; it has no live artwork |
| `NowPlayingApi.TrackFieldsResolved` | api/now-playing.ts:86-92 | a successful track's name, artist (default "Unknown"), album (default ""), url and image come from the selected record by the fallback rules |
| `NowListening.Includes` | src/components/NowListening.tsx:34-35 | `includes` holds exactly when the substring occurs at some position |
| `NowListening.SettledPayload` | src/components/NowListening.tsx:34-58 | a JSON response that decodes is stored exactly as decoded; anything else stores `{ok:false, nowPlaying:false, track:null}` whose message is the non-JSON message exactly for a non-JSON response and "Could not load (fetch failed)" exactly for a rejected fetch or an undecodable body |
| `NowListening.Widget.constructor` | src/components/NowListening.tsx:20-25 | a mounted widget starts with no data, loading and not cancelled, and shows the skeleton |
| `NowListening.Widget.Settle` | src/components/NowListening.tsx:27-61 | before unmount, a settle stores the settled payload and ends loading; after unmount it changes neither `data` nor `loading`; loading never returns to true; once loading is over there is always data |
| `NowListening.Widget.Unmount` | src/components/NowListening.tsx:66-69 | unmounting sets the cancellation flag and leaves `data` and `loading` unchanged |
| `NowListening.NonJsonIgnoresBody` | src/components/NowListening.tsx:34-45 | a response whose content type is not JSON is never decoded; it yields `{ok:false, nowPlaying:false, track:null}` with the non-JSON message |
| `NowListening.MissingContentTypeIsNotJson` | src/components/NowListening.tsx:34-35 | a response without a content-type header counts as not JSON |
| `NowListening.JsonReplacesWholesale` | src/components/NowListening.tsx:46-49 | with a JSON content type, the decoded payload is stored exactly as decoded |
| `NowListening.SyntheticShowsStatus` | src/components/NowListening.tsx:36-58 | a rejected fetch or an undecodable JSON body stores `{ok:false, nowPlaying:false, track:null, message:"Could not load (fetch failed)"}`; a non-JSON response stores the same shape with the non-JSON message; in every case the widget shows that message as the status |
| `NowListening.SelectStatus` | src/components/NowListening.tsx:100-120 | the status is chosen by priority: the account guidance exactly for the "Last.fm not configured" message; otherwise "no recent tracks" exactly for an ok payload without a track; otherwise the raw message when non-empty; otherwise "nothing to show" |
| `NowListening.Byline` | src/components/NowListening.tsx:175-178 | with an empty album the line is the artist alone; otherwise it is the artist, then " · ", then the album |
| `NowListening.SelectArtwork` | src/components/NowListening.tsx:149-167 | a live video exactly when the live artwork URL is non-empty; otherwise a static image exactly when the image is non-empty; otherwise the placeholder box |
| `NowListening.BuildCard` | src/components/NowListening.tsx:123-185 | the label is "Now listening" exactly when playing and "Last listened to" otherwise; the link is the url, or "#" when it is absent or empty; the title is the track name; the line below is the byline of artist and album; the artwork is the selected artwork; the blurred backdrop appears exactly when there is a non-empty image, and it is that image |
| `NowListening.SelectView` | src/components/NowListening.tsx:72-122 | the skeleton is shown exactly while loading; the card exactly when loaded with an ok payload that has a track; otherwise the selected status message |
| `NowListening.CardLabel` | src/components/NowListening.tsx:90-170 | a payload with a track shows a card, labelled "Now listening" exactly when its `nowPlaying` is true |
| `EndToEnd.ServedIsJson` | api/now-playing.ts:7-10 | the endpoint's content-type header passes the widget's JSON check |
| `EndToEnd.NotConfiguredShowsGuidance` | src/components/NowListening.tsx:102-111 | with no configuration, the first settled poll shows the connect-your-account guidance, never the skeleton |
| `EndToEnd.FailureShowsStatus` | src/components/NowListening.tsx:100-121 | any failure payload the endpoint serves is shown as a status message, never as a card |
| `EndToEnd.PlayingTrackScenario` | api/now-playing.ts:77-93 | a playing track with a flat artist, no album, and small and large images gives `nowPlaying:true`, album "" and the large image; the card is labelled "Now listening" and has no album suffix |
| `ProjectDetails.FindIndex` | src/pages/ProjectDetailsPage.tsx:22 | the index is the first project with the slug, or -1 exactly when no project has it |
| `ProjectDetails.Find` | src/pages/ProjectDetailsPage.tsx:6 | a project is found exactly when the route has a slug that some project carries, and it is the first such project |
| `ProjectDetails.SelectPage` | src/pages/ProjectDetailsPage.tsx:4-101 | the not-found page is selected exactly when the lookup fails; otherwise the page shows the found project, previous and next links to the projects at the wrapped neighbour indices of its first match, the external link button for its links, and the snapshot figures for its snapshots |
| `ProjectDetails.UnknownSlugNotFound` | src/pages/ProjectDetailsPage.tsx:8-20 | a missing slug, or one no project carries, selects the not-found page |
| `ProjectDetails.CurrentIndexIsFoundProject` | src/pages/ProjectDetailsPage.tsx:6-22 | the current index lies in range, points at the found project, and no earlier project has its slug |
| `ProjectDetails.PrevIndex` | src/pages/ProjectDetailsPage.tsx:23-24 | the previous index lies in [0, n); the previous of 0 is n-1, and elsewhere it is the index just before |
| `ProjectDetails.NextIndex` | src/pages/ProjectDetailsPage.tsx:25 | the next index lies in [0, n); the next of n-1 is 0, and elsewhere it is the index just after |
| `ProjectDetails.ProjectHref` | src/pages/ProjectDetailsPage.tsx:39-46 | a project link is "/projects/" followed by the slug, which can be read back from it |
| `ProjectDetails.PrevNextInverse` | src/pages/ProjectDetailsPage.tsx:23-25 | next undoes prev, and prev undoes next |
| `ProjectDetails.DetailsLinkNeighbours` | src/pages/ProjectDetailsPage.tsx:23-51 | the previous and next links point at the adjacent projects, wrapping at both ends |
| `ProjectDetails.ExternalLink` | src/pages/ProjectDetailsPage.tsx:63-75 | the external link button appears exactly when `links` is present and non-empty, and it uses `links[0]` |
| `ProjectDetails.SnapshotFigures` | src/pages/ProjectDetailsPage.tsx:81-101 | the snapshots section appears exactly when `snapshots` is present and non-empty, with one figure per snapshot in order |
| `HomePage.ToggleCard` | src/pages/HomePage.tsx:50-60 | the toggled card is flipped exactly when it was not; every other card keeps its state |
| `HomePage.ToggleTwice` | src/pages/HomePage.tsx:50-60 | toggling the same card twice gives back the original set |
| `HomePage.Rotate` | src/pages/HomePage.tsx:73 | one tick keeps the index in [0, length): it moves up by one, and from the last index it wraps to 0 |
| `HomePage.RotateTimes` | src/pages/HomePage.tsx:71-85 | after at least one tick the index lies in [0, length) |
| `HomePage.RotateTimesCounts` | src/pages/HomePage.tsx:73 | before the end of the list is reached, each tick moves the index up by one |
| `HomePage.RotateTimesCompose` | src/pages/HomePage.tsx:72-74 | ticking a times and then b times is the same as ticking a + b times |
| `HomePage.RotateTimesPeriod` | src/pages/HomePage.tsx:73 | from an index in range, the index reaches 0 after length - start ticks and is back at its start after length ticks |
| `HomePage.PhraseInRange` | src/pages/HomePage.tsx:71-77 | from its initial 0, the phrase index always lies in [0, 6) |
| `HomePage.PhrasePeriod` | src/pages/HomePage.tsx:71-77 | from any index in range, the phrase index is back where it was after 6 ticks |
| `HomePage.GreetingInRange` | src/pages/HomePage.tsx:79-85 | from its initial 0, the greeting index always lies in [0, 8) |
| `HomePage.GreetingPeriod` | src/pages/HomePage.tsx:79-85 | from any index in range, the greeting index is back where it was after 8 ticks |
| `HomePage.NextPhase` | src/pages/HomePage.tsx:94-100 | each timeout advances the phase exactly one place in the cycle idle, glitch1, glitch2 |
| `HomePage.PhaseAfter` | src/pages/HomePage.tsx:92-106 | starting idle, the phase after k timeouts is place k mod 3 of the cycle idle, glitch1, glitch2 |
| `HomePage.PhaseAfterCycles` | src/pages/HomePage.tsx:92-106 | the phase sequence has period three, and the alias link shows exactly after timeouts 1, 4, 7, … |
| `HomePage.HeroNameFor` | src/pages/HomePage.tsx:141-183 | the alias link "saintted" to https://saintted.framer.website is shown exactly during glitch1; the other two phases show the name "mirireoluwa" |

## Left out

- Real HTTP, `process.env` and URL serialisation are left out. The configuration and the upstream call are parameters, and the query is a list of parameters in the order they are set.
- `Response`/`Headers` construction and JSON encoding and decoding are left out. A decode failure is the `Threw` outcome, or the widget's `Undecodable` body.
- JSON values the upstream's type annotation does not allow are left out: `null` inside the record, a non-object track element (the `typeof track !== "object"` guard), and a non-number `error`. The typed model cannot represent them.
- The server-side `console.error` logging is left out.
- The widget's base-URL choice (development versus production origin) is left out.
- The widget's `setInterval` and `clearInterval` are left out. Each poll is one `Settle` call, and settles may arrive in any order. No "latest request wins" property is claimed, because the code has no sequencing guard.
- The widget reads the decoded JSON as a `Payload`. Bodies of another shape, such as ones missing `ok` or `nowPlaying`, are not modelled.
- The home page's timers and the random 10–20 s glitch delay are left out. Ticks and timeouts are function applications.
- `ProjectDetails.SnapshotFigures`: the React `key` of each figure (`${src}-${index}`) is not modelled.
- `Project.snapshots` is read by the page but is not declared in the `Project` type, and the project table never sets it. The model gives it an optional list.
- The project table is an arbitrary sequence. Its `category` values do not match the declared union, which is a type-level quirk.
- All JSX, styling and animation are left out. So are the `useLayoutEffect` height measurement, the header's scrolling, the route composition and the Tailwind configuration.
