/**
 * The endpoint and the widget together: what the widget renders once it
 * has stored a payload the endpoint produced.
 */
module EndToEnd {
  import opened Wrappers
  import opened NowPlayingWire
  import Api = NowPlayingApi
  import Client = NowListening

  /** A payload the endpoint served, with its own content-type header, as the widget's settle sees it. */
  function Served(body: Payload): Client.FetchOutcome {
    Client.Responded(Some(Api.ResponseHeaders[0].1), Client.Json(body))
  }

  /** The endpoint's content type is recognised as JSON by the widget. */
  lemma ServedIsJson()
    ensures Client.IsJsonContentType(Some(Api.ResponseHeaders[0].1))
  {
    assert Api.ResponseHeaders[0].1[..|Client.JsonContentType|] == Client.JsonContentType;
  }

  /**
   * With no configuration, once the first poll settles the widget shows
   * the connect-your-account guidance, never the skeleton.
   */
  lemma NotConfiguredShowsGuidance(config: Api.Config, fetch: Api.Query -> Api.UpstreamOutcome)
    requires !Api.Configured(config)
    ensures Client.SelectView(false, Some(Client.SettledPayload(Served(Api.Respond(config, fetch).body))))
         == Client.Status(Client.ConnectAccountGuidance)
  {
    ServedIsJson();
  }

  /** Any upstream failure the endpoint reports shows as a status message, never a card. */
  lemma FailureShowsStatus(config: Api.Config, fetch: Api.Query -> Api.UpstreamOutcome)
    requires !Api.Respond(config, fetch).body.ok
    ensures Client.SelectView(false, Some(Client.SettledPayload(Served(Api.Respond(config, fetch).body)))).Status?
  {
    ServedIsJson();
  }

  /**
   * An upstream reply with one playing track, a flat artist, no album and a
   * large image but no extra-large one: the endpoint reports it playing with album "" and the
   * large image, and the widget labels it "Now listening" with no album
   * suffix.
   */
  lemma PlayingTrackScenario(name: string, url: string)
    requires name != "" && url != ""
    ensures var raw := Api.RawTrack(
              Some(name),
              Some(Api.NamedText(Some("Radiohead"), None)),
              None,
              Some(url),
              Some([Api.ImageVariant("small", "https://img/s.jpg"), Api.ImageVariant("large", "https://img/x.jpg")]),
              Some(Api.TrackAttr(Some("true"))));
            var reply := Api.Parsed(Api.UpstreamData(None, None, Some(Api.RecentTracks(Api.Obj(raw)))));
            var body := Api.Normalize(reply);
            && body == Payload(true, true, Present(Track(name, "Radiohead", "", Some(url), Some("https://img/x.jpg"), None)), None)
            && Client.SelectView(false, Some(Client.SettledPayload(Served(body))))
               == Client.TrackCard(Client.Card(url, Client.NowListeningLabel, name, "Radiohead",
                                               Client.StaticImage("https://img/x.jpg"), Some("https://img/x.jpg")))
  {
    ServedIsJson();
    var images := [Api.ImageVariant("small", "https://img/s.jpg"), Api.ImageVariant("large", "https://img/x.jpg")];
    assert Api.FindSize(images, Api.ExtraLarge) == None;
    assert Api.ResolveImage(Some(images)) == Some("https://img/x.jpg");
    var raw := Api.RawTrack(Some(name), Some(Api.NamedText(Some("Radiohead"), None)), None, Some(url),
                            Some(images), Some(Api.TrackAttr(Some("true"))));
    var reply := Api.Parsed(Api.UpstreamData(None, None, Some(Api.RecentTracks(Api.Obj(raw)))));
    var body := Api.Normalize(reply);
    assert body == Payload(true, true, Present(Track(name, "Radiohead", "", Some(url), Some("https://img/x.jpg"), None)), None);
    assert Client.SettledPayload(Served(body)) == body;
  }
}
