/** Track URIs of the form `spotify:track:<id>`: the prefix added to the track
    ids of saved albums, and the prefix check of `getTrackInfo`. */
module TrackUris {
  import opened Outcomes

  const TrackPrefix: string := "spotify:track:"

  /** `"spotify:track:" + id`. */
  function AddTrackPrefix(id: string): (uri: string)
    ensures TrackPrefix <= uri && uri[|TrackPrefix|..] == id
  {
    TrackPrefix + id
  }

  /** The id part of a track URI; any other text is rejected with
      "Invalid Spotify track URI: " and the text. */
  function StripTrackPrefix(uri: string): (r: Response<string>)
    ensures r.Ok? <==> TrackPrefix <= uri
    ensures r.Ok? ==> TrackPrefix + r.value == uri
    ensures r.Err? ==> r.error == InvalidTrackUri(uri)
  {
    if TrackPrefix <= uri then
      assert uri == uri[..|TrackPrefix|] + uri[|TrackPrefix|..];
      Ok(uri[|TrackPrefix|..])
    else Err(InvalidTrackUri(uri))
  }

  /** Stripping undoes prefixing, and prefixing undoes a successful strip. */
  lemma PrefixRoundTrip(id: string, uri: string)
    ensures StripTrackPrefix(AddTrackPrefix(id)) == Ok(id)
    ensures StripTrackPrefix(uri).Ok? ==> AddTrackPrefix(StripTrackPrefix(uri).value) == uri
  {
  }

  /** Prefixing is injective: distinct ids give distinct URIs. */
  lemma AddTrackPrefixInjective(a: string, b: string)
    ensures AddTrackPrefix(a) == AddTrackPrefix(b) ==> a == b
  {
    if AddTrackPrefix(a) == AddTrackPrefix(b) {
      assert a == AddTrackPrefix(a)[|TrackPrefix|..];
    }
  }
}
