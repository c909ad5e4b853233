/** An artist's "top tracks" as `getArtistTopTracks` derives them: every track
    of every album and single, fetched in batches of 50, ordered by popularity
    (most popular first, ties in fetch order) and cut to the first 25. */
module ArtistTopTracks {
  import opened Outcomes
  import opened Seqs
  import opened BatchWriter
  import opened Pagination

  /** The fields of a full track the selection uses. */
  datatype Track = Track(uri: string, popularity: int)

  /** How many tracks an artist contributes at most. */
  const TopTrackCount: nat := 25

  // ---------------------------------------------------------------------------
  // The stable popularity sort.

  predicate SortedByPopularity(s: seq<Track>) {
    forall i, j :: 0 <= i < j < |s| ==> s[i].popularity >= s[j].popularity
  }

  /** Inserts `x` before the first track that is not more popular than it. */
  function Insert(x: Track, s: seq<Track>): seq<Track>
    decreases |s|
  {
    if s == [] || s[0].popularity <= x.popularity then [x] + s
    else [s[0]] + Insert(x, s[1..])
  }

  /** `sorted(comparingInt(Track::getPopularity).reversed())` on an ordered
      stream: a stable sort, most popular first. */
  function SortByPopularity(s: seq<Track>): (r: seq<Track>)
    ensures SortedByPopularity(r)
    ensures multiset(r) == multiset(s)
    decreases |s|
  {
    if s == [] then []
    else
      var rest := SortByPopularity(s[1..]);
      SortStep(s, rest);
      Insert(s[0], rest)
  }

  /** The tracks of popularity `p`, in order. */
  function WithPopularity(s: seq<Track>, p: int): seq<Track>
    decreases |s|
  {
    if s == [] then []
    else (if s[0].popularity == p then [s[0]] else []) + WithPopularity(s[1..], p)
  }

  lemma {:induction false} InsertPermutes(x: Track, s: seq<Track>)
    ensures multiset(Insert(x, s)) == multiset(s) + multiset{x}
    decreases |s|
  {
    if !(s == [] || s[0].popularity <= x.popularity) {
      InsertPermutes(x, s[1..]);
      assert s == [s[0]] + s[1..];
    }
  }

  predicate AtMost(s: seq<Track>, p: int) {
    forall i :: 0 <= i < |s| ==> s[i].popularity <= p
  }

  lemma {:induction false} InsertAtMost(x: Track, s: seq<Track>, p: int)
    requires AtMost(s, p) && x.popularity <= p
    ensures AtMost(Insert(x, s), p)
    decreases |s|
  {
    if !(s == [] || s[0].popularity <= x.popularity) {
      InsertAtMost(x, s[1..], p);
      var t := Insert(x, s[1..]);
      assert forall i :: 0 < i < |t| + 1 ==> ([s[0]] + t)[i] == t[i - 1];
    }
  }

  lemma ConsSorted(a: Track, t: seq<Track>)
    requires SortedByPopularity(t) && AtMost(t, a.popularity)
    ensures SortedByPopularity([a] + t)
  {
    var u := [a] + t;
    forall i, j | 0 <= i < j < |u| ensures u[i].popularity >= u[j].popularity {
      assert u[j] == t[j - 1];
      if i > 0 {
        assert u[i] == t[i - 1];
      }
    }
  }

  lemma {:induction false} InsertSorted(x: Track, s: seq<Track>)
    requires SortedByPopularity(s)
    ensures SortedByPopularity(Insert(x, s))
    decreases |s|
  {
    if s == [] || s[0].popularity <= x.popularity {
      assert AtMost(s, x.popularity);
      ConsSorted(x, s);
    } else {
      InsertSorted(x, s[1..]);
      assert AtMost(s[1..], s[0].popularity);
      InsertAtMost(x, s[1..], s[0].popularity);
      ConsSorted(s[0], Insert(x, s[1..]));
    }
  }

  /** Inserting the head into the sorted rest sorts the whole list. */
  lemma SortStep(s: seq<Track>, rest: seq<Track>)
    requires s != [] && SortedByPopularity(rest) && multiset(rest) == multiset(s[1..])
    ensures SortedByPopularity(Insert(s[0], rest))
    ensures multiset(Insert(s[0], rest)) == multiset(s)
  {
    InsertSorted(s[0], rest);
    InsertPermutes(s[0], rest);
    assert s == [s[0]] + s[1..];
  }

  lemma WithPopularityCons(a: Track, t: seq<Track>, p: int)
    ensures WithPopularity([a] + t, p) == (if a.popularity == p then [a] else []) + WithPopularity(t, p)
  {
    assert ([a] + t)[0] == a && ([a] + t)[1..] == t;
  }

  lemma {:induction false} InsertStable(x: Track, s: seq<Track>, p: int)
    ensures WithPopularity(Insert(x, s), p) ==
      (if x.popularity == p then [x] else []) + WithPopularity(s, p)
    decreases |s|
  {
    if s == [] || s[0].popularity <= x.popularity {
      WithPopularityCons(x, s, p);
    } else {
      var a := s[0];
      InsertStable(x, s[1..], p);
      WithPopularityCons(a, Insert(x, s[1..]), p);
      WithPopularityCons(a, s[1..], p);
      assert s == [a] + s[1..];
      var ws := WithPopularity(s[1..], p);
      if x.popularity == p {
        assert a.popularity != p;
        assert WithPopularity(Insert(x, s), p) == [] + ([x] + ws);
      } else if a.popularity == p {
        assert WithPopularity(Insert(x, s), p) == [a] + ([] + ws);
      } else {
        assert WithPopularity(Insert(x, s), p) == [] + ([] + ws);
      }
    }
  }

  /** The sort is stable: tracks of equal popularity keep their fetch order. */
  lemma {:induction false} SortIsStable(s: seq<Track>, p: int)
    ensures WithPopularity(SortByPopularity(s), p) == WithPopularity(s, p)
    decreases |s|
  {
    if s != [] {
      SortIsStable(s[1..], p);
      InsertStable(s[0], SortByPopularity(s[1..]), p);
    }
  }

  function Uris(s: seq<Track>): seq<string> {
    seq(|s|, i requires 0 <= i < |s| => s[i].uri)
  }

  /** `.limit(25).map(Track::getUri)` after the sort: at most 25 URIs, all
      when there are fewer tracks, each the URI of a fetched track. */
  function TopUris(tracks: seq<Track>): (r: seq<string>)
    ensures |r| == Min(TopTrackCount, |tracks|)
    ensures forall i :: 0 <= i < |r| ==> exists t :: t in tracks && t.uri == r[i]
  {
    var sorted := SortByPopularity(tracks);
    assert |sorted| == |tracks| by {
      assert |multiset(sorted)| == |multiset(tracks)|;
    }
    assert forall i :: 0 <= i < |sorted| ==> sorted[i] in tracks by {
      forall i | 0 <= i < |sorted| ensures sorted[i] in tracks {
        assert sorted[i] in multiset(sorted);
      }
    }
    Uris(sorted[..Min(TopTrackCount, |sorted|)])
  }

  /** At most 25 URIs are chosen, all when there are fewer; they come from the
      fetched tracks; the chosen tracks, taken together with the rest, are
      exactly the fetched ones, and none of the rest is more popular than any
      chosen one. */
  lemma TopUrisSelectMostPopular(tracks: seq<Track>)
    ensures var sorted := SortByPopularity(tracks);
      var n := Min(TopTrackCount, |tracks|);
      && |TopUris(tracks)| == n
      && multiset(sorted[..n]) + multiset(sorted[n..]) == multiset(tracks)
      && (forall i :: 0 <= i < n ==> TopUris(tracks)[i] == sorted[i].uri)
      && (forall i, j :: 0 <= i < n <= j < |sorted| ==> sorted[i].popularity >= sorted[j].popularity)
  {
    var sorted := SortByPopularity(tracks);
    assert |sorted| == |tracks| by {
      assert |multiset(sorted)| == |multiset(tracks)|;
    }
    var n := Min(TopTrackCount, |tracks|);
    assert sorted == sorted[..n] + sorted[n..];
  }

  // ---------------------------------------------------------------------------
  // Fetching.

  /** The batches of track ids sent to the several-tracks endpoint. */
  function TrackBatches(ids: seq<string>): seq<seq<string>> {
    Chunks(ids, PagingLimit)
  }

  /** The track-id request of every album, as `getTracksFromAlbum` answers it. */
  function AlbumTracks(albumTrackPages: string -> seq<Response<Page<string>>>): string -> Response<seq<string>> {
    a => TracksFromAlbum(albumTrackPages(a))
  }

  /** Step 2 of `getArtistTopTracks`: the track ids of every album, in album
      order; an album whose request fails contributes none. */
  method CollectTrackIds(albums: seq<string>, albumTracks: string -> Response<seq<string>>)
    returns (trackIds: seq<string>)
    ensures trackIds == Gather(albums, albumTracks)
  {
    trackIds := [];
    for i := 0 to |albums|
      invariant trackIds == Gather(albums[..i], albumTracks)
    {
      GatherSnoc(albums[..i], albums[i], albumTracks);
      assert albums[..i + 1] == albums[..i] + [albums[i]];
      trackIds := trackIds + ItemsOrEmpty(albumTracks(albums[i]));
    }
    assert albums[..|albums|] == albums;
  }

  /** Step 3 of `getArtistTopTracks`: the full tracks of the ids, requested
      50 at a time; a batch whose request fails contributes none. */
  method FetchTracks(trackIds: seq<string>, details: seq<string> -> Response<seq<Track>>)
    returns (allTracks: seq<Track>)
    ensures allTracks == Gather(TrackBatches(trackIds), details)
  {
    allTracks := [];
    var i := 0;
    var n := |trackIds|;
    while i < n
      invariant 0 <= i
      invariant Gather(TrackBatches(trackIds), details) == allTracks + Gather(Chunks(trackIds[Min(i, n)..], PagingLimit), details)
      decreases n - i
    {
      var end := Min(i + PagingLimit, n);
      var batchIds := trackIds[i..end];
      ChunksStep(trackIds, PagingLimit, i);
      GatherAppend([batchIds], Chunks(trackIds[end..], PagingLimit), details);
      assert [batchIds][1..] == [];
      allTracks := allTracks + ItemsOrEmpty(details(batchIds));
      i := i + PagingLimit;
      assert Min(i, n) == end;
    }
    assert trackIds[Min(i, n)..] == [];
    assert Chunks(trackIds[Min(i, n)..], PagingLimit) == [];
    assert allTracks + [] == allTracks;
  }

  /** What `getArtistTopTracks` returns for the given remote answers. */
  function TopTracksResult(albumPages: seq<Response<Page<string>>>,
                           albumTrackPages: string -> seq<Response<Page<string>>>,
                           details: seq<string> -> Response<seq<Track>>): Response<seq<string>>
  {
    match Walk(albumPages)
    case Err(e) => Err(e)
    case Ok(albums) => Ok(TopUris(Gather(TrackBatches(Gather(albums, AlbumTracks(albumTrackPages))), details)))
  }

  /** `getArtistTopTracks`. `albumPages` are the pages of the artist's albums
      and singles (album ids; a failed page fails the whole call);
      `albumTrackPages(a)` are the track pages of album `a`; `details(b)`
      answers the several-tracks request for batch `b`. The album and batch
      requests run concurrently and a failed one contributes nothing. Their
      results are appended, under a lock, in the order the requests complete;
      this model fixes one such order, request order. */
  method GetArtistTopTracks(albumPages: seq<Response<Page<string>>>,
                            albumTrackPages: string -> seq<Response<Page<string>>>,
                            details: seq<string> -> Response<seq<Track>>)
    returns (r: Response<seq<string>>)
    ensures r == TopTracksResult(albumPages, albumTrackPages, details)
    ensures r.Ok? ==> |r.value| <= TopTrackCount
  {
    var albums, _ := WalkPages(albumPages);
    if albums.Err? {
      return Err(albums.error);
    }
    var trackIds := CollectTrackIds(albums.value, AlbumTracks(albumTrackPages));
    var allTracks := FetchTracks(trackIds, details);
    TopUrisSelectMostPopular(allTracks);
    r := Ok(TopUris(allTracks));
  }

  /** `getTracksFromAlbum`: the track ids of the album's first page (at most
      50), or the failure of that request. Later pages are never requested:
      the ids are a prefix of the album's full listing, all of it only when
      the first page has no next link. */
  function TracksFromAlbum(trackPages: seq<Response<Page<string>>>): (r: Response<seq<string>>)
    ensures r.Err? <==> PageAt(trackPages, 0).Err?
    ensures r.Ok? && Walk(trackPages).Ok? ==> r.value <= Walk(trackPages).value
    ensures PageAt(trackPages, 0).Ok? && PageAt(trackPages, 0).value.next.None? ==> r == Walk(trackPages)
  {
    match PageAt(trackPages, 0)
    case Ok(p) => Ok(p.items)
    case Err(e) => Err(e)
  }
}
