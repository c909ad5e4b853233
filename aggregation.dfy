/** The aggregate of the current program: the static set of track URIs that
    main fills from the shuffle playlist itself, the included playlists, the
    liked songs, the followed artists' top tracks and the saved albums, and
    then writes back to the shuffle playlist in shuffled order. Every failure
    propagates out of main. */
module Aggregation {
  import opened Outcomes
  import opened Seqs
  import opened Resources
  import opened BatchWriter
  import opened Pagination
  import opened Preferences
  import opened TrackUris
  import ArtistTopTracks
  import Triage

  /** The answers of the remote API that the aggregation reads, each request
      already routed through the retry executor. */
  datatype Remote = Remote(
    playlistTotal: JString -> Response<int>,                  // a playlist's track total
    playlistPage: JString -> int -> Response<seq<string>>,    // a playlist's items at an offset
    likedPages: seq<Response<Page<string>>>,                  // the saved tracks
    artistAlbumPages: JString -> seq<Response<Page<string>>>, // an artist's albums and singles
    albumTrackPages: string -> seq<Response<Page<string>>>,   // an album's tracks
    trackDetails: seq<string> -> Response<seq<ArtistTopTracks.Track>>,
    savedAlbumPages: seq<Response<Page<string>>>)             // the saved albums

  /** What `getPlaylistTrackUris(id)` returns. */
  function PlaylistUris(remote: Remote, id: JString): Response<seq<string>> {
    match remote.playlistTotal(id)
    case Err(e) => Err(e)
    case Ok(total) => Ok(Gather(FanOutOffsets(total), remote.playlistPage(id)))
  }

  // ---------------------------------------------------------------------------
  // Collecting from a list of sources until the first failure.

  /** The URIs gathered so far and the failure that ended the gathering. */
  datatype Partial = Partial(uris: seq<string>, failure: Option<Error>)

  const Nothing := Partial([], None)

  /** One more source: its URIs are appended, or its failure ends the
      gathering; nothing changes once it has ended. */
  function Extend(a: Partial, r: Response<seq<string>>): Partial {
    if a.failure.Some? then a
    else match r
      case Err(e) => a.(failure := Some(e))
      case Ok(v) => a.(uris := a.uris + v)
  }

  /** The sources of `xs` in order; `source(x)` is `None` for an element
      that is passed over. */
  function Collect<A>(a: Partial, xs: seq<A>, source: A -> Option<Response<seq<string>>>): Partial
    decreases |xs|
  {
    if xs == [] then a
    else
      var prev := Collect(a, xs[..|xs| - 1], source);
      match source(xs[|xs| - 1])
      case None => prev
      case Some(r) => Extend(prev, r)
  }

  lemma {:induction false} CollectFailedStays<A>(a: Partial, xs: seq<A>, source: A -> Option<Response<seq<string>>>)
    requires a.failure.Some?
    ensures Collect(a, xs, source) == a
    decreases |xs|
  {
    if xs != [] {
      CollectFailedStays(a, xs[..|xs| - 1], source);
    }
  }

  lemma {:induction false} CollectAppend<A>(a: Partial, xs: seq<A>, ys: seq<A>, source: A -> Option<Response<seq<string>>>)
    ensures Collect(a, xs + ys, source) == Collect(Collect(a, xs, source), ys, source)
    decreases |ys|
  {
    if ys == [] {
      assert xs + ys == xs;
    } else {
      assert (xs + ys)[..|xs + ys| - 1] == xs + ys[..|ys| - 1];
      assert (xs + ys)[|xs + ys| - 1] == ys[|ys| - 1];
      CollectAppend(a, xs, ys[..|ys| - 1], source);
    }
  }

  /** A source is ended early: the gathering over the whole list is the
      gathering up to and including it. */
  lemma CollectStopsAt<A>(a: Partial, xs: seq<A>, i: nat, source: A -> Option<Response<seq<string>>>)
    requires i < |xs| && Collect(a, xs[..i + 1], source).failure.Some?
    ensures Collect(a, xs, source) == Collect(a, xs[..i + 1], source)
  {
    assert xs == xs[..i + 1] + xs[i + 1..];
    CollectAppend(a, xs[..i + 1], xs[i + 1..], source);
    CollectFailedStays(Collect(a, xs[..i + 1], source), xs[i + 1..], source);
  }

  /** A gathering without failure holds exactly the URIs of its sources: every
      source answered, each one's URIs are in, and every URI in came from the
      start or from one of them. */
  lemma {:induction false} CollectIsUnion<A>(a: Partial, xs: seq<A>, source: A -> Option<Response<seq<string>>>)
    requires a.failure.None?
    ensures var c := Collect(a, xs, source);
      && (c.failure.None? ==>
            forall x :: x in xs && source(x).Some? ==> source(x).value.Ok? && Elems(source(x).value.value) <= Elems(c.uris))
      && (forall u :: u in c.uris ==> u in a.uris || exists x :: x in xs && source(x).Some? && source(x).value.Ok? && u in source(x).value.value)
      && a.uris <= c.uris
    decreases |xs|
  {
    if xs != [] {
      var init := xs[..|xs| - 1];
      var last := xs[|xs| - 1];
      CollectIsUnion(a, init, source);
      var prev := Collect(a, init, source);
      var c := Collect(a, xs, source);
      assert forall x :: x in init ==> x in xs;
      if c.failure.None? {
        assert prev.failure.None?;
        forall x | x in xs && source(x).Some?
          ensures source(x).value.Ok? && Elems(source(x).value.value) <= Elems(c.uris)
        {
          if x == last {
            assert c.uris == prev.uris + source(x).value.value;
          } else {
            assert x in init;
            assert prev.uris <= c.uris;
          }
        }
      }
    }
  }

  // ---------------------------------------------------------------------------
  // The sources.

  /** The included playlists contribute their tracks; the others none. */
  function PlaylistSource(remote: Remote): Entity -> Option<Response<seq<string>>> {
    (p: Entity) => if p.includeInShuffle then Some(PlaylistUris(remote, p.id)) else None
  }

  /** Every stored artist contributes its top tracks, whatever its flag. */
  function ArtistSource(remote: Remote): Entity -> Option<Response<seq<string>>> {
    (artist: Entity) => Some(ArtistTopTracks.TopTracksResult(remote.artistAlbumPages(artist.id), remote.albumTrackPages, remote.trackDetails))
  }

  function Prefixed(r: Response<seq<string>>): Response<seq<string>> {
    match r
    case Err(e) => Err(e)
    case Ok(ids) => Ok(seq(|ids|, i requires 0 <= i < |ids| => AddTrackPrefix(ids[i])))
  }

  /** A saved album contributes its track ids as track URIs. */
  function AlbumSource(remote: Remote): string -> Option<Response<seq<string>>> {
    (album: string) => Some(Prefixed(ArtistTopTracks.TracksFromAlbum(remote.albumTrackPages(album))))
  }

  /** The track ids of a saved album, as `getTracksFromAlbum` fetches them. */
  function AlbumTrackIds(remote: Remote, album: string): Response<seq<string>> {
    ArtistTopTracks.TracksFromAlbum(remote.albumTrackPages(album))
  }

  /** The saved-album walk from the `k`-th page on: every album of a page in
      turn, then the next page while there is a next link. A gathering that
      has already failed stays as it is, and one that goes on keeps what it
      had gathered. */
  function SavedAlbumsFrom(acc: Partial, remote: Remote, k: nat): (r: Partial)
    ensures acc.failure.Some? ==> r == acc
    ensures acc.uris <= r.uris
    decreases |remote.savedAlbumPages| - k
  {
    match PageAt(remote.savedAlbumPages, k)
    case Err(e) => Extend(acc, Err(e))
    case Ok(p) =>
      var a := Collect(acc, p.items, AlbumSource(remote));
      assert acc.failure.Some? ==> a == acc by {
        if acc.failure.Some? { CollectFailedStays(acc, p.items, AlbumSource(remote)); }
      }
      assert acc.uris <= a.uris by {
        if acc.failure.None? { CollectIsUnion(acc, p.items, AlbumSource(remote)); }
      }
      if a.failure.Some? || p.next.None? then a else SavedAlbumsFrom(a, remote, k + 1)
  }

  /** Page by page is the same as album by album over the whole walk: the
      gathering fails if the walk does, and when it does not fail it is the
      gathering over the albums of every page up to the first one without a
      next link. */
  lemma {:induction false} SavedAlbumsIsWalk(acc: Partial, remote: Remote, k: nat)
    requires acc.failure.None?
    ensures var r := SavedAlbumsFrom(acc, remote, k);
      var w := WalkFrom(remote.savedAlbumPages, k);
      && (w.Err? ==> r.failure.Some?)
      && (r.failure.None? ==> w.Ok? && r == Collect(acc, w.value, AlbumSource(remote)))
    decreases |remote.savedAlbumPages| - k
  {
    match PageAt(remote.savedAlbumPages, k)
    case Err(e) =>
    case Ok(p) =>
      var a := Collect(acc, p.items, AlbumSource(remote));
      if a.failure.None? && p.next.Some? {
        SavedAlbumsIsWalk(a, remote, k + 1);
        var w := WalkFrom(remote.savedAlbumPages, k + 1);
        if w.Ok? {
          CollectAppend(acc, p.items, w.value, AlbumSource(remote));
        }
      }
  }

  /** The saved albums contribute exactly the track URIs of their tracks: when
      the walk from the first page has no failure, every album on a walked
      page answered and each of its track ids is in as a track URI, and every
      URI in is the track URI of such an id. */
  lemma SavedAlbumsUnion(remote: Remote)
    requires SavedAlbumsFrom(Nothing, remote, 0).failure.None?
    ensures var uris := SavedAlbumsFrom(Nothing, remote, 0).uris;
      && Walk(remote.savedAlbumPages).Ok?
      && (forall album :: album in Walk(remote.savedAlbumPages).value ==>
            && AlbumTrackIds(remote, album).Ok?
            && forall id :: id in AlbumTrackIds(remote, album).value ==> AddTrackPrefix(id) in uris)
      && (forall x :: x in uris ==>
            exists album, id :: album in Walk(remote.savedAlbumPages).value && AlbumTrackIds(remote, album).Ok?
              && id in AlbumTrackIds(remote, album).value && x == AddTrackPrefix(id))
  {
    SavedAlbumsIsWalk(Nothing, remote, 0);
    var albums := Walk(remote.savedAlbumPages).value;
    var uris := SavedAlbumsFrom(Nothing, remote, 0).uris;
    var source := AlbumSource(remote);
    CollectIsUnion(Nothing, albums, source);
    forall album | album in albums
      ensures AlbumTrackIds(remote, album).Ok?
      ensures forall id :: id in AlbumTrackIds(remote, album).value ==> AddTrackPrefix(id) in uris
    {
      var ids := AlbumTrackIds(remote, album).value;
      forall id | id in ids ensures AddTrackPrefix(id) in uris {
        var i :| 0 <= i < |ids| && ids[i] == id;
        assert source(album).value.value[i] == AddTrackPrefix(id);
        assert AddTrackPrefix(id) in Elems(source(album).value.value);
      }
    }
    forall x | x in uris
      ensures exists album, id ::
        album in albums && AlbumTrackIds(remote, album).Ok? && id in AlbumTrackIds(remote, album).value && x == AddTrackPrefix(id)
    {
      var album :| album in albums && source(album).Some? && source(album).value.Ok? && x in source(album).value.value;
      var ids := AlbumTrackIds(remote, album).value;
      var i :| 0 <= i < |ids| && source(album).value.value[i] == x;
      assert ids[i] in ids;
    }
  }

  predicate AllTrackUris(uris: seq<string>) {
    forall i :: 0 <= i < |uris| ==> TrackPrefix <= uris[i]
  }

  lemma {:induction false} CollectAlbumsArePrefixed(acc: Partial, albums: seq<string>, remote: Remote)
    requires AllTrackUris(acc.uris)
    ensures AllTrackUris(Collect(acc, albums, AlbumSource(remote)).uris)
    decreases |albums|
  {
    if albums != [] {
      CollectAlbumsArePrefixed(acc, albums[..|albums| - 1], remote);
    }
  }

  /** Every URI that the saved albums contribute carries the `spotify:track:`
      prefix. */
  lemma {:induction false} SavedAlbumUrisArePrefixed(acc: Partial, remote: Remote, k: nat)
    requires AllTrackUris(acc.uris)
    ensures AllTrackUris(SavedAlbumsFrom(acc, remote, k).uris)
    decreases |remote.savedAlbumPages| - k
  {
    match PageAt(remote.savedAlbumPages, k)
    case Err(e) =>
    case Ok(p) =>
      CollectAlbumsArePrefixed(acc, p.items, remote);
      var a := Collect(acc, p.items, AlbumSource(remote));
      if !(a.failure.Some? || p.next.None?) {
        SavedAlbumUrisArePrefixed(a, remote, k + 1);
      }
  }

  /** The playlists that `listPlaylists` returns, or its failure. */
  function TriagedList(stored: seq<Entity>, remoteList: Response<seq<Triage.RemoteEntity>>, answers: seq<string>, shuffleId: JString): Response<seq<Entity>> {
    match remoteList
    case Err(e) => Err(e)
    case Ok(items) =>
      match Triage.TriageFrom(Triage.Triaged(stored, 0), items, answers, shuffleId)
      case Err(e) => Err(e)
      case Ok(t) => Ok(t.data)
  }

  /** The artists that `listArtists` returns, or its failure. */
  function TriagedArtists(stored: seq<Entity>, pages: seq<Response<Page<Triage.RemoteEntity>>>, answers: seq<string>, shuffleId: JString): Response<seq<Entity>> {
    match Triage.FollowedFrom(Triage.Triaged(stored, 0), pages, 0, answers, shuffleId)
    case Err(e) => Err(e)
    case Ok(t) => Ok(t.data)
  }

  function Outcome(p: Partial): Response<()> {
    if p.failure.Some? then Err(p.failure.value) else Ok(())
  }

  // ---------------------------------------------------------------------------
  // The set.

  /** The static `HashSet` of track URIs. */
  class ShuffleSet {
    var uris: set<string>

    constructor ()
      ensures uris == {}
    {
      uris := {};
    }

    method AddAll(items: seq<string>)
      modifies this
      ensures uris == old(uris) + Elems(items)
    {
      uris := uris + Elems(items);
    }

    method Clear()
      modifies this
      ensures uris == {}
    {
      uris := {};
    }

    /** Adds the tracks of the given sources in order, stopping at the first
        failure; the set grows by the URIs gathered. */
    method AddSources<A>(xs: seq<A>, source: A -> Option<Response<seq<string>>>, fetch: A -> Response<seq<string>>)
      returns (r: Response<()>)
      requires forall x :: x in xs && source(x).Some? ==> fetch(x) == source(x).value
      modifies this
      ensures uris == old(uris) + Elems(Collect(Nothing, xs, source).uris)
      ensures r == Outcome(Collect(Nothing, xs, source))
    {
      for i := 0 to |xs|
        invariant Collect(Nothing, xs[..i], source).failure.None?
        invariant uris == old(uris) + Elems(Collect(Nothing, xs[..i], source).uris)
      {
        assert xs[..i + 1][..i] == xs[..i];
        ghost var prev := Collect(Nothing, xs[..i], source);
        if source(xs[i]).None? {
          continue;
        }
        var items := fetch(xs[i]);
        if items.Err? {
          CollectStopsAt(Nothing, xs, i, source);
          return Err(items.error);
        }
        ElemsAppend(prev.uris, items.value);
        AddAll(items.value);
      }
      assert xs[..|xs|] == xs;
      r := Ok(());
    }

    /** `addPlaylistsToShuffleList`: triages the user's playlists, then adds
        the tracks of every included playlist and the liked songs. */
    method AddPlaylistsToShuffleList(db: JsonFileDb, userPlaylists: Response<seq<Triage.RemoteEntity>>, answers: seq<string>,
                                     shuffleId: JString, remote: Remote)
      returns (r: Response<()>)
      modifies this, db
      ensures var t := TriagedList(old(db.StoredPlaylists()), userPlaylists, answers, shuffleId);
        && (t.Err? ==> r == Err(t.error) && uris == old(uris) && db.file == old(db.file))
        && (t.Ok? ==>
              var p := Extend(Collect(Nothing, t.value, PlaylistSource(remote)), Walk(remote.likedPages));
              && db.StoredPlaylists() == t.value && db.StoredArtists() == old(db.StoredArtists())
              && uris == old(uris) + Elems(p.uris)
              && r == Outcome(p))
    {
      var listed := Triage.ListPlaylists(db, userPlaylists, answers, shuffleId);
      if listed.Err? {
        return Err(listed.error);
      }
      var playlistsToAdd := listed.value.data;
      var included := AddSources(playlistsToAdd, PlaylistSource(remote), (p: Entity) => PlaylistUris(remote, p.id));
      ghost var c := Collect(Nothing, playlistsToAdd, PlaylistSource(remote));
      if included.Err? {
        return included;
      }
      var likedSongs, _ := GetLikedSongs(remote.likedPages);
      if likedSongs.Err? {
        return Err(likedSongs.error);
      }
      ElemsAppend(c.uris, likedSongs.value);
      AddAll(likedSongs.value);
      r := Ok(());
    }

    /** `addFollowedArtistsToShuffleList`: triages the followed artists, then
        adds the top tracks of every stored artist. */
    method AddFollowedArtistsToShuffleList(db: JsonFileDb, followedPages: seq<Response<Page<Triage.RemoteEntity>>>, answers: seq<string>,
                                           shuffleId: JString, remote: Remote)
      returns (r: Response<()>)
      modifies this, db
      ensures var t := TriagedArtists(old(db.StoredArtists()), followedPages, answers, shuffleId);
        && (t.Err? ==> r == Err(t.error) && uris == old(uris) && db.file == old(db.file))
        && (t.Ok? ==>
              var p := Collect(Nothing, t.value, ArtistSource(remote));
              && db.StoredArtists() == t.value && db.StoredPlaylists() == old(db.StoredPlaylists())
              && uris == old(uris) + Elems(p.uris)
              && r == Outcome(p))
    {
      var listed, _ := Triage.ListArtists(db, followedPages, answers, shuffleId);
      if listed.Err? {
        return Err(listed.error);
      }
      var artistsToAdd := listed.value.data;
      r := AddSources(artistsToAdd, ArtistSource(remote), (artist: Entity) => TopTracksOf(remote, artist));
    }

    /** `addUserAlbums`: walks the saved albums page by page and adds the
        tracks of each album, prefixed to track URIs. */
    method AddUserAlbums(remote: Remote) returns (r: Response<()>)
      modifies this
      ensures var p := SavedAlbumsFrom(Nothing, remote, 0);
        uris == old(uris) + Elems(p.uris) && r == Outcome(p)
    {
      ghost var acc := Nothing;
      var k := 0;
      var offset := 0;
      while true
        invariant k <= |remote.savedAlbumPages| && offset == PagingLimit * k
        invariant acc.failure.None?
        invariant uris == old(uris) + Elems(acc.uris)
        invariant SavedAlbumsFrom(Nothing, remote, 0) == SavedAlbumsFrom(acc, remote, k)
        decreases |remote.savedAlbumPages| - k
      {
        var savedAlbums := PageAt(remote.savedAlbumPages, k);
        if savedAlbums.Err? {
          return Err(savedAlbums.error);
        }
        var albums := savedAlbums.value.items;
        ghost var start := acc;
        for i := 0 to |albums|
          invariant Collect(start, albums[..i], AlbumSource(remote)).failure.None?
          invariant uris == old(uris) + Elems(Collect(start, albums[..i], AlbumSource(remote)).uris)
        {
          assert albums[..i + 1][..i] == albums[..i];
          ghost var prev := Collect(start, albums[..i], AlbumSource(remote));
          var tracks := ArtistTopTracks.TracksFromAlbum(remote.albumTrackPages(albums[i]));
          if tracks.Err? {
            CollectStopsAt(start, albums, i, AlbumSource(remote));
            return Err(tracks.error);
          }
          var trackUris := Prefixed(tracks).value;
          ElemsAppend(prev.uris, trackUris);
          AddAll(trackUris);
        }
        assert albums[..|albums|] == albums;
        acc := Collect(start, albums, AlbumSource(remote));
        offset := offset + PagingLimit;
        if savedAlbums.value.next.None? {
          return Ok(());
        }
        k := k + 1;
      }
    }

    /** `shuffleThePlaylist`: empties the shuffle playlist and appends the
        set's URIs, each once, in shuffled order. The set is not changed. */
    method ShuffleThePlaylist(replaceResult: Response<()>, addBatch: nat -> Response<()>)
      returns (written: seq<string>, sent: seq<seq<string>>, r: Response<()>)
      ensures NoDuplicates(written) && Elems(written) == uris && |written| == |uris|
      ensures replaceResult.Err? ==> sent == [] && r == replaceResult
      ensures replaceResult.Ok? ==>
        && |sent| <= |Chunks(written, MaxTracksPerRequest)|
        && sent == Chunks(written, MaxTracksPerRequest)[..|sent|]
        && (r.Ok? <==> BatchesSucceed(written, addBatch))
      ensures r.Ok? ==> Flatten(sent) == written
    {
      written := ShuffledList(uris);
      if replaceResult.Err? {
        return written, [], replaceResult;
      }
      sent, r := AddTracksInChunks(written, addBatch);
      if r.Ok? {
        ChunksFlatten(written, MaxTracksPerRequest);
      }
    }
    /** `main` up to the rewrite: loads the shuffle playlist into the empty
        set, then adds the included playlists and liked songs, the followed
        artists' top tracks and the saved albums. The first failure ends the
        run. */
    method AggregateSources(db: JsonFileDb, session: Session, remote: Remote) returns (r: Response<()>)
      requires uris == {}
      modifies this, db
      ensures var agg := Aggregated(old(db.StoredPlaylists()), old(db.StoredArtists()), session, remote);
        && (agg.Err? ==> r == Err(agg.error))
        && (agg.Ok? ==> r == Ok(()) && uris == agg.value)
      ensures var playlists := TriagedList(old(db.StoredPlaylists()), session.userPlaylists, session.playlistAnswers, session.shuffleId);
        var artists := TriagedArtists(old(db.StoredArtists()), session.followedPages, session.artistAnswers, session.shuffleId);
        Aggregated(old(db.StoredPlaylists()), old(db.StoredArtists()), session, remote).Ok? ==>
          db.StoredPlaylists() == playlists.value && db.StoredArtists() == artists.value
    {
      ghost var storedPlaylists, storedArtists := db.StoredPlaylists(), db.StoredArtists();
      var id := session.shuffleId;
      var initial, _ := GetPlaylistTrackUris(remote.playlistTotal(id), remote.playlistPage(id));
      assert initial == PlaylistUris(remote, id);
      if initial.Err? {
        return Err(initial.error);
      }
      AddAll(initial.value);
      r := AddPlaylistsToShuffleList(db, session.userPlaylists, session.playlistAnswers, id, remote);
      ghost var playlists := TriagedList(storedPlaylists, session.userPlaylists, session.playlistAnswers, id);
      if r.Err? {
        return;
      }
      assert playlists.Ok?;
      ghost var p := PlaylistsAndLiked(playlists.value, remote);
      assert p.failure.None? && uris == Elems(initial.value) + Elems(p.uris);
      assert db.StoredArtists() == storedArtists;
      r := AddFollowedArtistsToShuffleList(db, session.followedPages, session.artistAnswers, id, remote);
      ghost var artists := TriagedArtists(storedArtists, session.followedPages, session.artistAnswers, id);
      if r.Err? {
        return;
      }
      assert artists.Ok?;
      ghost var q := Collect(Nothing, artists.value, ArtistSource(remote));
      assert q.failure.None? && uris == Elems(initial.value) + Elems(p.uris) + Elems(q.uris);
      r := AddUserAlbums(remote);
    }

    /** `main` after authorization: gathers the set, rewrites the shuffle
        playlist from it, then empties the set and reloads it from the
        rewritten playlist (`after` answers those requests). The first
        failure ends the run. */
    method Run(db: JsonFileDb, session: Session, remote: Remote, replaceResult: Response<()>,
               addBatch: nat -> Response<()>, after: Remote)
      returns (r: Response<()>, written: seq<string>)
      requires uris == {}
      modifies this, db
      ensures var agg := Aggregated(old(db.StoredPlaylists()), old(db.StoredArtists()), session, remote);
        && (agg.Err? ==> r == Err(agg.error))
        && (agg.Ok? ==> NoDuplicates(written) && Elems(written) == agg.value && |written| == |agg.value|)
        && (r.Ok? <==> agg.Ok? && replaceResult.Ok? && BatchesSucceed(written, addBatch) && PlaylistUris(after, session.shuffleId).Ok?)
        && (r.Ok? ==> uris == Elems(PlaylistUris(after, session.shuffleId).value))
      ensures var playlists := TriagedList(old(db.StoredPlaylists()), session.userPlaylists, session.playlistAnswers, session.shuffleId);
        var artists := TriagedArtists(old(db.StoredArtists()), session.followedPages, session.artistAnswers, session.shuffleId);
        Aggregated(old(db.StoredPlaylists()), old(db.StoredArtists()), session, remote).Ok? ==>
          db.StoredPlaylists() == playlists.value && db.StoredArtists() == artists.value
    {
      written := [];
      r := AggregateSources(db, session, remote);
      if r.Err? {
        return;
      }
      var sent;
      written, sent, r := ShuffleThePlaylist(replaceResult, addBatch);
      if r.Err? {
        return;
      }
      Clear();
      var id := session.shuffleId;
      var reloaded, _ := GetPlaylistTrackUris(after.playlistTotal(id), after.playlistPage(id));
      assert reloaded == PlaylistUris(after, id);
      if reloaded.Err? {
        return Err(reloaded.error), written;
      }
      AddAll(reloaded.value);
    }
  }

  /** The inputs of a run besides the remote collections: the shuffle
      playlist's id, the user's playlists and the followed-artist pages to
      triage, and the console answers of each triage. */
  datatype Session = Session(
    shuffleId: JString,
    userPlaylists: Response<seq<Triage.RemoteEntity>>,
    playlistAnswers: seq<string>,
    followedPages: seq<Response<Page<Triage.RemoteEntity>>>,
    artistAnswers: seq<string>)

  /** What `addPlaylistsToShuffleList` gathers from the triaged playlists. */
  function PlaylistsAndLiked(playlists: seq<Entity>, remote: Remote): Partial {
    Extend(Collect(Nothing, playlists, PlaylistSource(remote)), Walk(remote.likedPages))
  }

  /** The set that the shuffle playlist is rewritten from, or the first
      failure before the rewrite. */
  function Aggregated(storedPlaylists: seq<Entity>, storedArtists: seq<Entity>, session: Session, remote: Remote): Response<set<string>> {
    match PlaylistUris(remote, session.shuffleId)
    case Err(e) => Err(e)
    case Ok(initial) =>
      match TriagedList(storedPlaylists, session.userPlaylists, session.playlistAnswers, session.shuffleId)
      case Err(e) => Err(e)
      case Ok(playlists) =>
        var p := PlaylistsAndLiked(playlists, remote);
        if p.failure.Some? then Err(p.failure.value)
        else match TriagedArtists(storedArtists, session.followedPages, session.artistAnswers, session.shuffleId)
        case Err(e) => Err(e)
        case Ok(artists) =>
          var q := Collect(Nothing, artists, ArtistSource(remote));
          if q.failure.Some? then Err(q.failure.value)
          else
            var a := SavedAlbumsFrom(Nothing, remote, 0);
            if a.failure.Some? then Err(a.failure.value)
            else Ok(Elems(initial) + Elems(p.uris) + Elems(q.uris) + Elems(a.uris))
  }

  /** The set is the union of its sources: when the run gets as far as the
      rewrite, the set holds every track already in the shuffle playlist,
      every track of every included playlist, every liked song, every top
      track of every stored artist and the track URI of every track of every
      saved album; and each track in it comes from one of those. */
  lemma AggregatedIsUnion(storedPlaylists: seq<Entity>, storedArtists: seq<Entity>, session: Session, remote: Remote)
    requires Aggregated(storedPlaylists, storedArtists, session, remote).Ok?
    ensures var u := Aggregated(storedPlaylists, storedArtists, session, remote).value;
      var initial := PlaylistUris(remote, session.shuffleId);
      var playlists := TriagedList(storedPlaylists, session.userPlaylists, session.playlistAnswers, session.shuffleId);
      var artists := TriagedArtists(storedArtists, session.followedPages, session.artistAnswers, session.shuffleId);
      var albums := Walk(remote.savedAlbumPages);
      && initial.Ok? && playlists.Ok? && artists.Ok? && Walk(remote.likedPages).Ok? && albums.Ok?
      && Elems(initial.value) <= u
      && Elems(Walk(remote.likedPages).value) <= u
      && (forall p :: p in playlists.value && p.includeInShuffle ==>
            PlaylistUris(remote, p.id).Ok? && Elems(PlaylistUris(remote, p.id).value) <= u)
      && (forall artist :: artist in artists.value ==>
            TopTracksOf(remote, artist).Ok? && Elems(TopTracksOf(remote, artist).value) <= u)
      && (forall album :: album in albums.value ==>
            && AlbumTrackIds(remote, album).Ok?
            && forall id :: id in AlbumTrackIds(remote, album).value ==> AddTrackPrefix(id) in u)
      && (forall x :: x in u ==>
            || x in initial.value
            || x in Walk(remote.likedPages).value
            || (exists p :: p in playlists.value && p.includeInShuffle && PlaylistUris(remote, p.id).Ok? && x in PlaylistUris(remote, p.id).value)
            || (exists artist :: artist in artists.value && TopTracksOf(remote, artist).Ok? && x in TopTracksOf(remote, artist).value)
            || (exists album, id :: album in albums.value && AlbumTrackIds(remote, album).Ok?
                  && id in AlbumTrackIds(remote, album).value && x == AddTrackPrefix(id)))
  {
    var playlists := TriagedList(storedPlaylists, session.userPlaylists, session.playlistAnswers, session.shuffleId).value;
    var artists := TriagedArtists(storedArtists, session.followedPages, session.artistAnswers, session.shuffleId).value;
    var c := Collect(Nothing, playlists, PlaylistSource(remote));
    CollectIsUnion(Nothing, playlists, PlaylistSource(remote));
    CollectIsUnion(Nothing, artists, ArtistSource(remote));
    SavedAlbumsUnion(remote);
    var liked := Walk(remote.likedPages).value;
    assert PlaylistsAndLiked(playlists, remote).uris == c.uris + liked;
  }

  /** The artist's top tracks, as `getArtistTopTracks` fetches them. */
  function TopTracksOf(remote: Remote, artist: Entity): Response<seq<string>> {
    ArtistTopTracks.TopTracksResult(remote.artistAlbumPages(artist.id), remote.albumTrackPages, remote.trackDetails)
  }
}
