/** The first version of the program (the top-level `Main` class): the shuffle
    playlist is extended with the included playlists and the liked songs that
    it does not hold yet, then deduplicated and rewritten in shuffled order.
    Its remote calls are not retried, and most failures are caught and end the
    operation quietly. */
module LegacyMain {
  import opened Outcomes
  import opened Seqs
  import opened Resources
  import opened LegacyPlaylist
  import opened BatchWriter
  import opened Pagination
  import Triage

  // ---------------------------------------------------------------------------
  // filterOutDuplicates

  /** The elements of `source` that are not in `existing`, in order, repeats
      kept. */
  function Without(source: seq<string>, existing: seq<string>): seq<string>
    decreases |source|
  {
    if source == [] then []
    else (if source[0] in existing then [] else [source[0]]) + Without(source[1..], existing)
  }

  lemma WithoutStep(source: seq<string>, existing: seq<string>, i: nat)
    requires i < |source|
    ensures Without(source[i..], existing) == (if source[i] in existing then [] else [source[i]]) + Without(source[i + 1..], existing)
  {
    assert source[i..][1..] == source[i + 1..];
  }

  method FilterOutDuplicates(sourceTracks: seq<string>, existingTracks: seq<string>)
    returns (filteredTracks: seq<string>)
    ensures filteredTracks == Without(sourceTracks, existingTracks)
  {
    var existingTrackSet := set x | x in existingTracks;
    filteredTracks := [];
    for i := 0 to |sourceTracks|
      invariant Without(sourceTracks, existingTracks) == filteredTracks + Without(sourceTracks[i..], existingTracks)
    {
      WithoutStep(sourceTracks, existingTracks, i);
      ghost var rest := Without(sourceTracks[i + 1..], existingTracks);
      if sourceTracks[i] !in existingTrackSet {
        assert filteredTracks + ([sourceTracks[i]] + rest) == (filteredTracks + [sourceTracks[i]]) + rest;
        filteredTracks := filteredTracks + [sourceTracks[i]];
      } else {
        assert [] + rest == rest;
      }
    }
    assert sourceTracks[|sourceTracks|..] == [];
  }

  /** Each element keeps its number of occurrences unless it is in `existing`,
      in which case it is gone. */
  lemma {:induction false} WithoutCounts(source: seq<string>, existing: seq<string>)
    ensures forall x :: multiset(Without(source, existing))[x] == if x in existing then 0 else multiset(source)[x]
    decreases |source|
  {
    if source != [] {
      WithoutCounts(source[1..], existing);
      assert source == [source[0]] + source[1..];
    }
  }

  /** Membership in the filtered list: in the source and not existing. */
  lemma WithoutMembership(source: seq<string>, existing: seq<string>)
    ensures forall x :: x in Without(source, existing) <==> x in source && x !in existing
  {
    WithoutCounts(source, existing);
    forall x ensures x in Without(source, existing) <==> x in source && x !in existing {
      assert x in Without(source, existing) <==> multiset(Without(source, existing))[x] > 0;
      assert x in source <==> multiset(source)[x] > 0;
    }
  }

  /** `a` is `b` with some elements removed, the rest in order. */
  predicate Subsequence(a: seq<string>, b: seq<string>)
    decreases |b|
  {
    if a == [] then true
    else if b == [] then false
    else (a[0] == b[0] && Subsequence(a[1..], b[1..])) || Subsequence(a, b[1..])
  }

  lemma {:induction false} SubsequenceLength(a: seq<string>, b: seq<string>)
    requires Subsequence(a, b)
    ensures |a| <= |b|
    decreases |b|
  {
    if a != [] {
      if a[0] == b[0] && Subsequence(a[1..], b[1..]) {
        SubsequenceLength(a[1..], b[1..]);
      } else {
        SubsequenceLength(a, b[1..]);
      }
    }
  }

  /** The filtered list is a subsequence of the source. */
  lemma {:induction false} WithoutIsSubsequence(source: seq<string>, existing: seq<string>)
    ensures Subsequence(Without(source, existing), source)
    ensures |Without(source, existing)| <= |source|
    decreases |source|
  {
    if source != [] {
      WithoutIsSubsequence(source[1..], existing);
      var w := Without(source, existing);
      var rest := Without(source[1..], existing);
      if source[0] in existing {
        assert w == rest;
        if w != [] {
          assert Subsequence(w, source[1..]);
        }
      } else {
        assert w == [source[0]] + rest;
        assert w[1..] == rest;
      }
      SubsequenceLength(w, source);
    }
  }

  // ---------------------------------------------------------------------------
  // getLikedSongs of the first version: stops at an empty page or a failure.

  /** The liked songs gathered from the `k`-th request on. */
  function LikedFrom(pages: seq<Response<Page<string>>>, k: nat): seq<string>
    decreases |pages| - k
  {
    match PageAt(pages, k)
    case Err(_) => []
    case Ok(p) => if p.items == [] then [] else p.items + LikedFrom(pages, k + 1)
  }

  /** The number of requests made from the `k`-th one on. */
  function LikedRequestsFrom(pages: seq<Response<Page<string>>>, k: nat): nat
    decreases |pages| - k
  {
    match PageAt(pages, k)
    case Err(_) => 1
    case Ok(p) => if p.items == [] then 1 else 1 + LikedRequestsFrom(pages, k + 1)
  }

  /** Requests pages of 50 at offsets 0, 50, 100, ... until one comes back
      empty or a request fails; a failure ends the loop and keeps what was
      gathered. */
  method GetLikedSongs(pages: seq<Response<Page<string>>>)
    returns (likedSongsUris: seq<string>, offsets: seq<int>)
    ensures likedSongsUris == LikedFrom(pages, 0)
    ensures |offsets| == LikedRequestsFrom(pages, 0)
    ensures forall k :: 0 <= k < |offsets| ==> offsets[k] == PagingLimit * k
  {
    likedSongsUris := [];
    offsets := [];
    var offset := 0;
    var moreTracksAvailable := true;
    while moreTracksAvailable
      invariant offset == PagingLimit * |offsets|
      invariant forall k :: 0 <= k < |offsets| ==> offsets[k] == PagingLimit * k
      invariant moreTracksAvailable ==> |offsets| <= |pages|
      invariant moreTracksAvailable ==> LikedFrom(pages, 0) == likedSongsUris + LikedFrom(pages, |offsets|)
      invariant moreTracksAvailable ==> LikedRequestsFrom(pages, 0) == |offsets| + LikedRequestsFrom(pages, |offsets|)
      invariant !moreTracksAvailable ==> LikedFrom(pages, 0) == likedSongsUris && LikedRequestsFrom(pages, 0) == |offsets|
      decreases if moreTracksAvailable then |pages| + 1 - |offsets| else 0
    {
      var k := |offsets|;
      var savedTracks := PageAt(pages, k);
      offsets := offsets + [offset];
      if savedTracks.Err? {
        assert LikedFrom(pages, k) == [] && LikedRequestsFrom(pages, k) == 1;
        assert likedSongsUris + [] == likedSongsUris;
        break;
      }
      ghost var before := likedSongsUris;
      likedSongsUris := likedSongsUris + savedTracks.value.items;
      offset := offset + PagingLimit;
      if |savedTracks.value.items| == 0 {
        assert LikedFrom(pages, k) == [] && LikedRequestsFrom(pages, k) == 1;
        assert likedSongsUris == before + [];
        moreTracksAvailable := false;
      } else {
        assert LikedFrom(pages, k) == savedTracks.value.items + LikedFrom(pages, k + 1);
        assert LikedRequestsFrom(pages, k) == 1 + LikedRequestsFrom(pages, k + 1);
        assert before + LikedFrom(pages, k) == likedSongsUris + LikedFrom(pages, k + 1);
      }
    }
  }

  /** The liked songs are the items of the pages before the first empty or
      failed one, in page order. */
  lemma {:induction false} LikedSongsShape(pages: seq<Response<Page<string>>>, k: nat)
    ensures var m := LikedRequestsFrom(pages, k);
      && m >= 1
      && (forall j :: k <= j < k + m - 1 ==> PageAt(pages, j).Ok? && PageAt(pages, j).value.items != [])
      && (PageAt(pages, k + m - 1).Err? || PageAt(pages, k + m - 1).value.items == [])
      && LikedFrom(pages, k) == Flatten(seq(m - 1, j requires 0 <= j < m - 1 => ItemsAt(pages, k + j)))
    decreases |pages| - k
  {
    var m := LikedRequestsFrom(pages, k);
    match PageAt(pages, k)
    case Err(_) =>
    case Ok(p) =>
      if p.items != [] {
        LikedSongsShape(pages, k + 1);
        var m' := LikedRequestsFrom(pages, k + 1);
        var s := seq(m - 1, j requires 0 <= j < m - 1 => ItemsAt(pages, k + j));
        var s' := seq(m' - 1, j requires 0 <= j < m' - 1 => ItemsAt(pages, k + 1 + j));
        assert m == 1 + m';
        assert s[0] == ItemsAt(pages, k) == p.items;
        assert forall j :: 0 <= j < m' - 1 ==> s[1..][j] == s[j + 1] == s'[j];
        assert s[1..] == s';
        assert s == [p.items] + s';
      }
  }

  // ---------------------------------------------------------------------------
  // addPlaylistToShuffleList

  /** The progress of `addPlaylistToShuffleList`: the running list of the shuffle
      playlist's URIs, the lists handed to `addTracksInChunks` so far, and
      whether an exception has ended the operation. */
  datatype Aggregate = Aggregate(running: seq<string>, added: seq<seq<string>>, stopped: bool)

  /** One source of tracks: its URIs not yet in the running list are appended
      to it and sent, unless there are none; a failed fetch or a failed add
      request ends the operation. `addBatch(j)` answers the batch requests of
      the `j`-th add. */
  function AddSource(a: Aggregate, source: Response<seq<string>>, addBatch: nat -> nat -> Response<()>): Aggregate {
    if a.stopped then a
    else match source
      case Err(_) => a.(stopped := true)
      case Ok(tracks) =>
        var newTracks := Without(tracks, a.running);
        if newTracks == [] then a
        else Aggregate(a.running + newTracks, a.added + [newTracks], !BatchesSucceed(newTracks, addBatch(|a.added|)))
  }

  /** The playlists in order; those not included in the shuffle are passed
      over. */
  function AddPlaylists(a: Aggregate, playlists: seq<Entity>, playlistPages: JString -> seq<Response<Page<string>>>,
                        addBatch: nat -> nat -> Response<()>): Aggregate
    decreases |playlists|
  {
    if playlists == [] then a
    else
      var prev := AddPlaylists(a, playlists[..|playlists| - 1], playlistPages, addBatch);
      var p := playlists[|playlists| - 1];
      if !p.includeInShuffle then prev else AddSource(prev, Walk(playlistPages(p.id)), addBatch)
  }

  /** The whole operation: the shuffle playlist's URIs, then the included
      playlists, then the liked songs. */
  function Aggregation(playlists: seq<Entity>, shufflePages: seq<Response<Page<string>>>,
                       playlistPages: JString -> seq<Response<Page<string>>>, likedPages: seq<Response<Page<string>>>,
                       addBatch: nat -> nat -> Response<()>): Aggregate
  {
    match Walk(shufflePages)
    case Err(_) => Aggregate([], [], true)
    case Ok(initial) =>
      AddSource(AddPlaylists(Aggregate(initial, [], false), playlists, playlistPages, addBatch), Ok(LikedFrom(likedPages, 0)), addBatch)
  }

  lemma StoppedStays(a: Aggregate, playlists: seq<Entity>, playlistPages: JString -> seq<Response<Page<string>>>,
                     addBatch: nat -> nat -> Response<()>)
    requires a.stopped
    ensures AddPlaylists(a, playlists, playlistPages, addBatch) == a
    decreases |playlists|
  {
  }

  lemma {:induction false} AddPlaylistsAppend(a: Aggregate, xs: seq<Entity>, ys: seq<Entity>,
                                              playlistPages: JString -> seq<Response<Page<string>>>,
                                              addBatch: nat -> nat -> Response<()>)
    ensures AddPlaylists(a, xs + ys, playlistPages, addBatch) ==
      AddPlaylists(AddPlaylists(a, xs, playlistPages, addBatch), ys, playlistPages, addBatch)
    decreases |ys|
  {
    if ys == [] {
      assert xs + ys == xs;
    } else {
      assert (xs + ys)[..|xs + ys| - 1] == xs + ys[..|ys| - 1];
      assert (xs + ys)[|xs + ys| - 1] == ys[|ys| - 1];
      AddPlaylistsAppend(a, xs, ys[..|ys| - 1], playlistPages, addBatch);
    }
  }

  /** `addPlaylistToShuffleList`, with every exception caught: the returned
      progress says what was sent before the operation ended. */
  method AddPlaylistToShuffleList(playlistsToAdd: seq<Entity>, shufflePages: seq<Response<Page<string>>>,
                                  playlistPages: JString -> seq<Response<Page<string>>>,
                                  likedPages: seq<Response<Page<string>>>,
                                  addBatch: nat -> nat -> Response<()>)
    returns (a: Aggregate)
    ensures a == Aggregation(playlistsToAdd, shufflePages, playlistPages, likedPages, addBatch)
  {
    var shufflePlaylist, _ := WalkPages(shufflePages);
    if shufflePlaylist.Err? {
      return Aggregate([], [], true);
    }
    var start := Aggregate(shufflePlaylist.value, [], false);
    var shufflePlaylistTrackUris := shufflePlaylist.value;
    var added: seq<seq<string>> := [];
    for i := 0 to |playlistsToAdd|
      invariant AddPlaylists(start, playlistsToAdd[..i], playlistPages, addBatch) == Aggregate(shufflePlaylistTrackUris, added, false)
    {
      assert playlistsToAdd[..i + 1][..i] == playlistsToAdd[..i];
      var playlist := playlistsToAdd[i];
      if !playlist.includeInShuffle {
        continue;
      }
      var currentPlaylistTracks, _ := WalkPages(playlistPages(playlist.id));
      if currentPlaylistTracks.Err? {
        a := Aggregate(shufflePlaylistTrackUris, added, true);
        assert playlistsToAdd == playlistsToAdd[..i + 1] + playlistsToAdd[i + 1..];
        AddPlaylistsAppend(start, playlistsToAdd[..i + 1], playlistsToAdd[i + 1..], playlistPages, addBatch);
        StoppedStays(a, playlistsToAdd[i + 1..], playlistPages, addBatch);
        return a;
      }
      var tracksToAdd := FilterOutDuplicates(currentPlaylistTracks.value, shufflePlaylistTrackUris);
      if tracksToAdd != [] {
        var k := |added|;
        shufflePlaylistTrackUris := shufflePlaylistTrackUris + tracksToAdd;
        added := added + [tracksToAdd];
        var _, res := AddTracksInChunks(tracksToAdd, addBatch(k));
        if res.Err? {
          a := Aggregate(shufflePlaylistTrackUris, added, true);
          assert playlistsToAdd == playlistsToAdd[..i + 1] + playlistsToAdd[i + 1..];
          AddPlaylistsAppend(start, playlistsToAdd[..i + 1], playlistsToAdd[i + 1..], playlistPages, addBatch);
          StoppedStays(a, playlistsToAdd[i + 1..], playlistPages, addBatch);
          return a;
        }
      }
    }
    assert playlistsToAdd[..|playlistsToAdd|] == playlistsToAdd;
    var likeSongs, _ := GetLikedSongs(likedPages);
    var likedSongsToAdd := FilterOutDuplicates(likeSongs, shufflePlaylistTrackUris);
    a := Aggregate(shufflePlaylistTrackUris, added, false);
    if likedSongsToAdd != [] {
      var k := |added|;
      var _, res := AddTracksInChunks(likedSongsToAdd, addBatch(k));
      a := Aggregate(shufflePlaylistTrackUris + likedSongsToAdd, added + [likedSongsToAdd], res.Err?);
    }
  }

  /** The running list is the shuffle playlist's URIs followed by everything
      handed to `addTracksInChunks`; no add is made with an empty list, and
      nothing added was already in the running list before it. */
  predicate Consistent(a: Aggregate, initial: seq<string>) {
    && a.running == initial + Flatten(a.added)
    && forall j :: 0 <= j < |a.added| ==>
         a.added[j] != [] && forall x :: x in a.added[j] ==> x !in initial + Flatten(a.added[..j])
  }

  lemma AddSourceConsistent(a: Aggregate, initial: seq<string>, source: Response<seq<string>>, addBatch: nat -> nat -> Response<()>)
    requires Consistent(a, initial)
    ensures Consistent(AddSource(a, source, addBatch), initial)
  {
    if !a.stopped && source.Ok? {
      var newTracks := Without(source.value, a.running);
      if newTracks != [] {
        var added := a.added + [newTracks];
        FlattenAppend(a.added, [newTracks]);
        FlattenSingle(newTracks);
        WithoutMembership(source.value, a.running);
        assert initial + Flatten(added) == a.running + newTracks;
        forall j | 0 <= j < |added|
          ensures added[j] != [] && forall x :: x in added[j] ==> x !in initial + Flatten(added[..j])
        {
          if j < |a.added| {
            assert added[..j] == a.added[..j];
          } else {
            assert added[..j] == a.added;
          }
        }
      }
    }
  }

  lemma {:induction false} AddPlaylistsConsistent(a: Aggregate, initial: seq<string>, playlists: seq<Entity>,
                                                  playlistPages: JString -> seq<Response<Page<string>>>,
                                                  addBatch: nat -> nat -> Response<()>)
    requires Consistent(a, initial)
    ensures Consistent(AddPlaylists(a, playlists, playlistPages, addBatch), initial)
    decreases |playlists|
  {
    if playlists != [] {
      AddPlaylistsConsistent(a, initial, playlists[..|playlists| - 1], playlistPages, addBatch);
      var prev := AddPlaylists(a, playlists[..|playlists| - 1], playlistPages, addBatch);
      AddSourceConsistent(prev, initial, Walk(playlistPages(playlists[|playlists| - 1].id)), addBatch);
    }
  }

  /** Whatever happens, the running list grows by exactly the lists that were
      added, each non-empty and new to the running list. */
  lemma AggregationConsistent(playlists: seq<Entity>, shufflePages: seq<Response<Page<string>>>,
                              playlistPages: JString -> seq<Response<Page<string>>>, likedPages: seq<Response<Page<string>>>,
                              addBatch: nat -> nat -> Response<()>)
    requires Walk(shufflePages).Ok?
    ensures Consistent(Aggregation(playlists, shufflePages, playlistPages, likedPages, addBatch), Walk(shufflePages).value)
  {
    var initial := Walk(shufflePages).value;
    assert Consistent(Aggregate(initial, [], false), initial) by {
      assert initial + Flatten([]) == initial;
    }
    AddPlaylistsConsistent(Aggregate(initial, [], false), initial, playlists, playlistPages, addBatch);
    var a := AddPlaylists(Aggregate(initial, [], false), playlists, playlistPages, addBatch);
    AddSourceConsistent(a, initial, Ok(LikedFrom(likedPages, 0)), addBatch);
  }

  function IncludedOnly(playlists: seq<Entity>): seq<Entity>
    decreases |playlists|
  {
    if playlists == [] then []
    else
      var init := IncludedOnly(playlists[..|playlists| - 1]);
      if playlists[|playlists| - 1].includeInShuffle then init + [playlists[|playlists| - 1]] else init
  }

  /** Only playlists included in the shuffle contribute: dropping the others
      changes nothing. */
  lemma {:induction false} OnlyIncludedContribute(a: Aggregate, playlists: seq<Entity>,
                                                  playlistPages: JString -> seq<Response<Page<string>>>,
                                                  addBatch: nat -> nat -> Response<()>)
    ensures AddPlaylists(a, playlists, playlistPages, addBatch) == AddPlaylists(a, IncludedOnly(playlists), playlistPages, addBatch)
    decreases |playlists|
  {
    if playlists != [] {
      var init := playlists[..|playlists| - 1];
      var p := playlists[|playlists| - 1];
      OnlyIncludedContribute(a, init, playlistPages, addBatch);
      if p.includeInShuffle {
        var inc := IncludedOnly(init) + [p];
        assert inc[..|inc| - 1] == IncludedOnly(init);
      }
    }
  }

  // ---------------------------------------------------------------------------
  // deDupeAndShuffleThePlaylist

  /** What `deDupeAndShuffleThePlaylist` did before it ended. */
  datatype Rewrite = Rewrite(
    shuffled: seq<string>,     // the distinct URIs in the order chosen
    replaced: bool,            // the playlist was emptied
    sent: seq<seq<string>>,    // the batches then requested
    completed: bool)           // no exception ended the operation

  /** Reads the shuffle playlist, empties it, reads it again and appends its
      distinct URIs in shuffled order; the first failure ends the operation and
      is caught. `replaceResult` answers the replace request. */
  method DeDupeAndShuffleThePlaylist(shufflePages: seq<Response<Page<string>>>, replaceResult: Response<()>,
                                     refetchPages: seq<Response<Page<string>>>, addBatch: nat -> Response<()>)
    returns (w: Rewrite)
    ensures Walk(shufflePages).Err? ==> !w.replaced && w.sent == [] && !w.completed
    ensures Walk(shufflePages).Ok? ==> DistinctPermutation(w.shuffled, Walk(shufflePages).value)
    ensures w.replaced <==> Walk(shufflePages).Ok? && replaceResult.Ok?
    ensures !w.replaced || Walk(refetchPages).Err? ==> w.sent == [] && !w.completed
    ensures w.replaced && Walk(refetchPages).Ok? ==>
      && |w.sent| <= |Chunks(w.shuffled, MaxTracksPerRequest)|
      && w.sent == Chunks(w.shuffled, MaxTracksPerRequest)[..|w.sent|]
      && (w.completed <==> BatchesSucceed(w.shuffled, addBatch))
    ensures w.completed ==> Flatten(w.sent) == w.shuffled
  {
    var shufflePlaylistTrackUris, _ := WalkPages(shufflePages);
    if shufflePlaylistTrackUris.Err? {
      return Rewrite([], false, [], false);
    }
    var uniqueSongs := set x | x in shufflePlaylistTrackUris.value;
    var shuffledSongs := ShuffledList(uniqueSongs);
    if replaceResult.Err? {
      return Rewrite(shuffledSongs, false, [], false);
    }
    var refetched, _ := WalkPages(refetchPages);
    if refetched.Err? {
      return Rewrite(shuffledSongs, true, [], false);
    }
    var sent, res := AddTracksInChunks(shuffledSongs, addBatch);
    if res.Ok? {
      ChunksFlatten(shuffledSongs, MaxTracksPerRequest);
    }
    w := Rewrite(shuffledSongs, true, sent, res.Ok?);
  }

  /** A completed rewrite leaves exactly the distinct URIs, each once: as many
      tracks as there were distinct ones. */
  lemma RewriteLength(out: seq<string>, source: seq<string>)
    requires DistinctPermutation(out, source)
    ensures |out| == |Elems(source)|
    ensures forall x :: x in source <==> x in out
  {
    NoDuplicatesCard(out);
    forall x ensures x in source <==> x in out {
      assert x in source <==> x in Elems(source);
      assert x in out <==> x in Elems(out);
    }
  }

  // ---------------------------------------------------------------------------
  // listPlaylists of the first version

  /** The triage loop of the first version, over `Playlist` objects. */
  method TriagePlaylists(start: Triage.Triaged, items: seq<Triage.RemoteEntity>, answers: seq<string>, shuffleId: JString)
    returns (r: Response<Triage.Triaged>)
    ensures r == Triage.TriageFrom(start, items, answers, shuffleId)
  {
    var data := start.data;
    var used: nat := start.consumed;
    for i := 0 to |items|
      invariant Triage.TriageFrom(start, items[..i], answers, shuffleId) == Ok(Triage.Triaged(data, used))
    {
      assert items[..i + 1][..i] == items[..i];
      var playlist := new Playlist();
      playlist.SetName(Some(items[i].name));
      playlist.SetId(Some(items[i].id));
      assert playlist.id == Some(items[i].id);
      if (exists j :: 0 <= j < |data| && data[j].id == playlist.id) || playlist.id == shuffleId {
        continue;
      }
      if used >= |answers| {
        assert Triage.TriageFrom(start, items[..i + 1], answers, shuffleId) == Err(NoInputLine);
        assert items == items[..i + 1] + items[i + 1..];
        Triage.TriageAppend(start, items[..i + 1], items[i + 1..], answers, shuffleId);
        return Err(NoInputLine);
      }
      playlist.SetIncludeInShuffle(Triage.IsYes(answers[used]));
      data := data + [playlist.View()];
      used := used + 1;
    }
    assert items[..|items|] == items;
    r := Ok(Triage.Triaged(data, used));
  }

  /** `listPlaylists` of the first version: `stored` is the content of the
      preference file. On success the triaged list is saved and returned; any
      failure is caught, nothing is saved and an empty list is returned. */
  method ListPlaylists(stored: seq<Entity>, userPlaylists: Response<seq<Triage.RemoteEntity>>, answers: seq<string>, shuffleId: JString)
    returns (playlists: seq<Entity>, saved: Option<seq<Entity>>)
    ensures userPlaylists.Err? ==> playlists == [] && saved == None
    ensures userPlaylists.Ok? ==>
      match Triage.TriageFrom(Triage.Triaged(stored, 0), userPlaylists.value, answers, shuffleId)
      case Ok(t) => playlists == t.data && saved == Some(t.data)
      case Err(_) => playlists == [] && saved == None
  {
    if userPlaylists.Err? {
      return [], None;
    }
    var r := TriagePlaylists(Triage.Triaged(stored, 0), userPlaylists.value, answers, shuffleId);
    if r.Err? {
      return [], None;
    }
    saved := Some(r.value.data);
    playlists := r.value.data;
  }
}
