/** The paginated collection fetcher: the offset fan-out of
    `getPlaylistTrackUris` (total known up front) and the next-link walks of
    `getLikedSongs`, `getArtistTopTracks` and `addUserAlbums` (total unknown). */
module Pagination {
  import opened Outcomes
  import opened Seqs

  /** Page size of the playlist-items endpoint. */
  const PlaylistPageSize: nat := 100
  /** Page size of the saved-tracks, artist-albums and saved-albums endpoints. */
  const PagingLimit: nat := 50

  // ---------------------------------------------------------------------------
  // Offset fan-out: one request per offset below the known total.

  function Max0(t: int): nat {
    if t < 0 then 0 else t
  }

  /** The offsets 0, 100, 200, ... strictly below `total`. */
  function FanOutOffsets(total: int): seq<int> {
    seq(CeilDiv(Max0(total), PlaylistPageSize), k => PlaylistPageSize * k)
  }

  /** The index of the page that holds track position `p`. */
  function PageIndex(p: nat): nat {
    p / PlaylistPageSize
  }

  /** The offsets requested are exactly `ceil(total / 100)` consecutive
      multiples of 100, all below the total, and every track position below the
      total lies in the page of one of them. */
  lemma FanOutCoversTotal(total: int)
    ensures |FanOutOffsets(total)| == CeilDiv(Max0(total), PlaylistPageSize)
    ensures forall k :: 0 <= k < |FanOutOffsets(total)| ==>
      FanOutOffsets(total)[k] == PlaylistPageSize * k && FanOutOffsets(total)[k] < total
    ensures forall p: nat :: p < total ==>
      PageIndex(p) < |FanOutOffsets(total)|
      && FanOutOffsets(total)[PageIndex(p)] <= p < FanOutOffsets(total)[PageIndex(p)] + PlaylistPageSize
  {
    var offs := FanOutOffsets(total);
    var n := |offs|;
    var t := Max0(total);
    DivUnique(t + PlaylistPageSize - 1, PlaylistPageSize, n, t + PlaylistPageSize - 1 - PlaylistPageSize * n);
    forall p: nat | p < total
      ensures PageIndex(p) < n && offs[PageIndex(p)] <= p < offs[PageIndex(p)] + PlaylistPageSize
    {
      var k := PageIndex(p);
      assert offs[k] == PlaylistPageSize * k;
    }
  }

  /** Fetches every track URI of a playlist. `total` is the answer to the
      playlist request (its failure is passed on); `page(o)` is the answer to the
      items request at offset `o`. The pages are requested concurrently in the
      source; a failed page contributes no URIs, and the results are joined in
      offset order. */
  method GetPlaylistTrackUris(total: Response<int>, page: int -> Response<seq<string>>)
    returns (r: Response<seq<string>>, offsets: seq<int>)
    ensures total.Err? ==> r == Err(total.error) && offsets == []
    ensures total.Ok? ==> offsets == FanOutOffsets(total.value) && r == Ok(Gather(offsets, page))
  {
    if total.Err? {
      return Err(total.error), [];
    }
    var totalTracks := total.value;
    offsets := [];
    var offset := 0;
    while offset < totalTracks
      invariant offset == PlaylistPageSize * |offsets|
      invariant |offsets| > 0 ==> offset - PlaylistPageSize < totalTracks
      invariant offsets == seq(|offsets|, k => PlaylistPageSize * k)
    {
      offsets := offsets + [offset];
      offset := offset + PlaylistPageSize;
    }
    var n := |offsets|;
    var t := Max0(totalTracks);
    DivUnique(t + PlaylistPageSize - 1, PlaylistPageSize, n, t + PlaylistPageSize - 1 - PlaylistPageSize * n);
    r := Ok(Gather(offsets, page));
  }

  // ---------------------------------------------------------------------------
  // Next-link walks: request page after page until one has no next link.

  /** Prepends `items` to a successful walk result. */
  function Prepend<T>(items: seq<T>, r: Response<seq<T>>): Response<seq<T>> {
    match r
    case Ok(rest) => Ok(items + rest)
    case Err(e) => Err(e)
  }

  /** The items of the walk from the `k`-th request on: every page up to and
      including the first one without a next link; a failed request fails the
      whole walk. */
  function WalkFrom<T>(pages: seq<Response<Page<T>>>, k: nat): Response<seq<T>>
    decreases |pages| - k
  {
    match PageAt(pages, k)
    case Err(e) => Err(e)
    case Ok(p) => if p.next.None? then Ok(p.items) else Prepend(p.items, WalkFrom(pages, k + 1))
  }

  /** The number of requests the walk makes from the `k`-th one on. */
  function RequestsFrom<T>(pages: seq<Response<Page<T>>>, k: nat): nat
    decreases |pages| - k
  {
    match PageAt(pages, k)
    case Err(_) => 1
    case Ok(p) => if p.next.None? then 1 else 1 + RequestsFrom(pages, k + 1)
  }

  function Walk<T>(pages: seq<Response<Page<T>>>): Response<seq<T>> {
    WalkFrom(pages, 0)
  }

  lemma PrependNil<T>(r: Response<seq<T>>)
    ensures Prepend([], r) == r
  {
    if r.Ok? {
      assert [] + r.value == r.value;
    }
  }

  lemma PrependTwice<T>(a: seq<T>, b: seq<T>, r: Response<seq<T>>)
    ensures Prepend(a, Prepend(b, r)) == Prepend(a + b, r)
  {
    if r.Ok? {
      assert a + (b + r.value) == (a + b) + r.value;
    }
  }

  /** The items of the `k`-th page, none if that request failed. */
  function ItemsAt<T>(pages: seq<Response<Page<T>>>, k: nat): seq<T> {
    if PageAt(pages, k).Ok? then PageAt(pages, k).value.items else []
  }

  /** A successful walk made `m` requests: every page before the last had a
      next link, the last had none, and the result is all their items in page
      order. A failed walk failed on its last request. */
  lemma {:induction false} WalkShape<T>(pages: seq<Response<Page<T>>>, k: nat)
    ensures var m := RequestsFrom(pages, k);
      && m >= 1
      && (forall j :: k <= j < k + m - 1 ==> PageAt(pages, j).Ok? && PageAt(pages, j).value.next.Some?)
      && (WalkFrom(pages, k).Ok? ==>
            PageAt(pages, k + m - 1).Ok? && PageAt(pages, k + m - 1).value.next.None?
            && WalkFrom(pages, k).value == Flatten(seq(m, j requires 0 <= j < m => ItemsAt(pages, k + j))))
      && (WalkFrom(pages, k).Err? ==>
            PageAt(pages, k + m - 1).Err? && WalkFrom(pages, k).error == PageAt(pages, k + m - 1).error)
    decreases |pages| - k
  {
    var m := RequestsFrom(pages, k);
    match PageAt(pages, k)
    case Err(e) =>
    case Ok(p) =>
      if p.next.None? {
        var s := seq(m, j requires 0 <= j < m => ItemsAt(pages, k + j));
        assert m == 1 && s[0] == ItemsAt(pages, k) == p.items;
        assert s == [p.items];
        FlattenSingle(p.items);
      } else {
        WalkShape(pages, k + 1);
        var m' := RequestsFrom(pages, k + 1);
        assert m == 1 + m';
        if WalkFrom(pages, k).Ok? {
          var s := seq(m, j requires 0 <= j < m => ItemsAt(pages, k + j));
          var s' := seq(m', j requires 0 <= j < m' => ItemsAt(pages, k + 1 + j));
          assert s[0] == ItemsAt(pages, k) == p.items;
          assert forall j :: 0 <= j < m' ==> s[1..][j] == s[j + 1] == s'[j];
          assert s[1..] == s';
          assert s == [p.items] + s';
        }
      }
  }

  /** Fetches the user's saved ("liked") tracks, 50 per request at offsets
      0, 50, 100, ..., until a page has no next link. A failed request fails
      the whole fetch. */
  method GetLikedSongs(pages: seq<Response<Page<string>>>)
    returns (r: Response<seq<string>>, offsets: seq<int>)
    ensures r == Walk(pages)
    ensures |offsets| == RequestsFrom(pages, 0)
    ensures forall k :: 0 <= k < |offsets| ==> offsets[k] == PagingLimit * k
  {
    var likedSongsUris: seq<string> := [];
    var offset := 0;
    offsets := [];
    var more := true;
    PrependNil(Walk(pages));
    while more
      invariant offset == PagingLimit * |offsets|
      invariant forall k :: 0 <= k < |offsets| ==> offsets[k] == PagingLimit * k
      invariant more ==> |offsets| <= |pages|
      invariant more ==> Walk(pages) == Prepend(likedSongsUris, WalkFrom(pages, |offsets|))
      invariant more ==> RequestsFrom(pages, 0) == |offsets| + RequestsFrom(pages, |offsets|)
      invariant !more ==> Walk(pages) == Ok(likedSongsUris) && RequestsFrom(pages, 0) == |offsets|
      decreases if more then |pages| + 1 - |offsets| else 0
    {
      var savedTracks := PageAt(pages, |offsets|);
      offsets := offsets + [offset];
      if savedTracks.Err? {
        return Err(savedTracks.error), offsets;
      }
      PrependTwice(likedSongsUris, savedTracks.value.items, WalkFrom(pages, |offsets|));
      likedSongsUris := likedSongsUris + savedTracks.value.items;
      offset := offset + PagingLimit;
      if savedTracks.value.next.None? {
        more := false;
      }
    }
    r := Ok(likedSongsUris);
  }

  /** Walks an offset-paged endpoint with a do-while loop, as the artist-albums
      and playlist-items walks do; each request is the next page. */
  method WalkPages<T>(pages: seq<Response<Page<T>>>) returns (r: Response<seq<T>>, requests: nat)
    ensures r == Walk(pages) && requests == RequestsFrom(pages, 0)
  {
    var items: seq<T> := [];
    requests := 0;
    var page := PageAt(pages, 0);
    PrependNil(Walk(pages));
    while true
      invariant requests <= |pages|
      invariant page == PageAt(pages, requests)
      invariant Walk(pages) == Prepend(items, WalkFrom(pages, requests))
      invariant RequestsFrom(pages, 0) == requests + RequestsFrom(pages, requests)
      decreases |pages| - requests
    {
      if page.Err? {
        return Err(page.error), requests + 1;
      }
      PrependTwice(items, page.value.items, WalkFrom(pages, requests + 1));
      items := items + page.value.items;
      if page.value.next.None? {
        return Ok(items), requests + 1;
      }
      requests := requests + 1;
      page := PageAt(pages, requests);
    }
  }
}
