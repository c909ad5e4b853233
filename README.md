# Playlist shuffle: a Dafny model

The program fills one "shuffle" playlist of a Spotify account. It gathers
tracks from several sources:

- the shuffle playlist itself;
- the user's playlists that the user chose to include;
- the liked songs;
- the followed artists' top tracks;
- the saved albums.

It asks on the console, once per new playlist or artist, whether to include
it, and keeps these preferences in a small JSON store. It then removes
duplicates and writes everything back to the shuffle playlist in shuffled
order, 100 tracks per request. Remote requests are retried while the
service answers "too many requests", with at most 10 calls in all (at most
9 retries).

There are two generations of the program:

- The current one (package `com.jled.playlistshuffle`) keeps the tracks in a
  static `HashSet`. It fans page requests out and triages playlists and
  followed artists.
- The first one (default package) keeps a running list, filters out
  duplicates before adding, and rebuilds the playlist from its distinct
  tracks.

The model replaces every remote request with its answer, given as input:

- A single request is a `Response<T>`, either `Ok(value)` or `Err(error)`.
- A paged endpoint is a sequence of page answers indexed by request number.
  A request past the end of the sequence gets an empty page with no next
  link.
- The console is a sequence of answer lines.
- The JSON file is a field holding an optional stored configuration.
- The retry executor reads `call(k)`, the outcome of the `k`-th attempt.

Modules:

- `Outcomes`: results, errors, pages.
- `Seqs`: flattening, the fan-out join, distinct lists.
- `RetryExecutor`: `executeWithRetry`.
- `BatchWriter`: `addTracksInChunks`.
- `Pagination`: the offset fan-out and the next-link walks.
- `Resources`: `SpotifyResource`.
- `LegacyPlaylist`: the first version's `Playlist`.
- `Preferences`: `Config` and the `JsonFileDb` of the current version.
- `Triage`: the playlist and artist triage of `listPlaylists` / `listArtists`.
- `ArtistTopTracks`: `getArtistTopTracks`, `getTracksFromAlbum`.
- `TrackUris`: the `spotify:track:` prefix.
- `OAuthCallback`: the extraction of the authorization code.
- `Aggregation`: the static set and `main` of the current version.
- `LegacyMain`: the first version's `Main`.

Where the code and its documentation disagree, the model follows the code:

- `addFollowedArtistsToShuffleList` adds the top tracks of every stored
  artist. It ignores the include flag that `listArtists` records.
- An exception in any step propagates out of `main`. Later steps do not run.
- `getTracksFromAlbum` reads only the first page (50 tracks) of an album.
- `listPlaylists` triages only the first page of the user's playlists.
- In `listArtists`, the `after` cursor of each request is the `next` link of
  the previous page.
- The first version's `getLikedSongs` stops at the first empty page. It also
  stops at the first failed request, keeping what it has gathered.
- A callback parameter `code=` with nothing (or only `=`) after the key makes
  the handler throw. The request is not answered 400.
- Each triage reads its own console: every call creates a new `Scanner`.

## Model

| member | source | states |
|---|---|---|
| RetryExecutor.ExecuteWithRetry | src/main/java/com/jled/playlistshuffle/Main.java:515-530 | makes between 1 and 10 calls; every call but the last was rate-limited; the last call's value is returned, its exception propagates, or "Max retry attempts exceeded" is raised after 10 rate-limited calls |
| RetryExecutor.SucceedsAfterRateLimits | src/main/java/com/jled/playlistshuffle/Main.java:518-523 | when the first success follows only rate-limited calls within the 10 attempts, its value is the result, after exactly that many calls |
| RetryExecutor.ExhaustedIffAllRateLimited | src/main/java/com/jled/playlistshuffle/Main.java:517-529 | the retry fails with "Max retry attempts exceeded" if and only if all remaining attempts up to 10 are rate-limited |
| RetryExecutor.OtherFailurePropagates | src/main/java/com/jled/playlistshuffle/Main.java:520-526 | a failure other than rate limiting is the result on the attempt where it occurs, with no further calls |
| BatchWriter.ChunksFlatten | src/main/java/com/jled/playlistshuffle/Main.java:309-312 | the batches, concatenated in order, are the input list |
| BatchWriter.ChunksSizes | src/main/java/com/jled/playlistshuffle/Main.java:310-311 | every batch holds between 1 and n items |
| BatchWriter.ChunksCount | src/main/java/com/jled/playlistshuffle/Main.java:307 | there are ceil(L / n) batches, and none for an empty list |
| BatchWriter.SentBatchesPartition | src/main/java/com/jled/playlistshuffle/Main.java:305-320 | the batches of 100 partition the track list in order: sizes 1..100, ceil(L/100) of them, none for an empty list |
| BatchWriter.AddTracksInChunks | src/main/java/com/jled/playlistshuffle/Main.java:305-320 | the batches sent are a prefix of the partition into 100s; success if and only if every batch was sent and accepted; otherwise the failure of the last batch sent propagates; the first version's `addTracksInChunks` is the same loop |
| Pagination.FanOutCoversTotal | src/main/java/com/jled/playlistshuffle/Main.java:331 | ceil(total/100) requests at offsets 0, 100, 200, ...; every position below the total falls in exactly the page that covers it |
| Pagination.GetPlaylistTrackUris | src/main/java/com/jled/playlistshuffle/Main.java:323-349 | a failed total propagates; otherwise the pages are requested at the fan-out offsets, and the result is their items in offset order, a failed page contributing nothing |
| Pagination.WalkShape | src/main/java/com/jled/playlistshuffle/Main.java:250-266 | a next-link walk requests pages until the first one without a next link; on success its result is all their items in page order, and a failed page ends it with that failure |
| Pagination.GetLikedSongs | src/main/java/com/jled/playlistshuffle/Main.java:243-269 | the liked songs are the walk over the saved-track pages, requested at offsets 0, 50, 100, ... |
| Pagination.WalkPages | src/main/java/com/jled/playlistshuffle/Main.java:437-444 | the album walk of `getArtistTopTracks` (and the first version's `getPlaylistTrackUris`) is the next-link walk, with one request per page read |
| Seqs.ShuffledList | src/main/java/com/jled/playlistshuffle/Main.java:353-354 | the shuffled copy holds each element of the set exactly once |
| Seqs.NoDuplicatesCard | src/main/java/Main.java:398-404 | a list without repeats has as many elements as its set |
| Resources.SpotifyResource.constructor | src/main/java/com/jled/playlistshuffle/SpotifyResource.java:5-9 | a new resource has null name and id and is not included |
| Resources.SpotifyResource.SetName | src/main/java/com/jled/playlistshuffle/SpotifyResource.java:15-17 | changes the name only |
| Resources.SpotifyResource.SetId | src/main/java/com/jled/playlistshuffle/SpotifyResource.java:23-25 | changes the id only |
| Resources.SpotifyResource.SetIncludeInShuffle | src/main/java/com/jled/playlistshuffle/SpotifyResource.java:31-33 | changes the include flag only |
| Resources.SpotifyResource.Equals | src/main/java/com/jled/playlistshuffle/SpotifyResource.java:35-43 | equal if and only if the other object is non-null, of the same runtime class, with a null-safe-equal id; never equal to null |
| Resources.EqualsIgnoresNameAndFlag | src/main/java/com/jled/playlistshuffle/SpotifyResource.java:42 | name and include flag never affect equality |
| Resources.EqualsContract | src/main/java/com/jled/playlistshuffle/SpotifyResource.java:35-48 | equality is reflexive and symmetric, and equal resources have equal hash codes |
| Resources.StringHash | src/main/java/com/jled/playlistshuffle/SpotifyResource.java:47 | `String.hashCode` stays within the 32-bit int range |
| Resources.NullSafeHash | src/main/java/com/jled/playlistshuffle/SpotifyResource.java:47 | `Objects.hashCode` is 0 for null and stays within the int range |
| Resources.SpotifyResource.HashCode | src/main/java/com/jled/playlistshuffle/SpotifyResource.java:45-48 | `Objects.hash(id)`: 31 plus the id's hash, wrapped to an int; 31 for a null id |
| Resources.Int32 | src/main/java/com/jled/playlistshuffle/SpotifyResource.java:45-48 | the hash arithmetic wraps to a 32-bit int |
| LegacyPlaylist.Playlist.constructor | src/main/java/Playlist.java:3-7 | a new playlist has null name and id and is not included |
| LegacyPlaylist.Playlist.SetName | src/main/java/Playlist.java:13-15 | changes the name only |
| LegacyPlaylist.Playlist.SetId | src/main/java/Playlist.java:21-23 | changes the id only |
| LegacyPlaylist.Playlist.SetIncludeInShuffle | src/main/java/Playlist.java:29-31 | changes the include flag only |
| LegacyPlaylist.Playlist.Equals | src/main/java/Playlist.java:33-38 | equal if and only if the other object is a non-null playlist with a null-safe-equal id; never equal to null |
| LegacyPlaylist.Playlist.HashCode | src/main/java/Playlist.java:40-43 | `Objects.hashCode(id)`: an int, 0 for a null id |
| LegacyPlaylist.PlaylistEqualsContract | src/main/java/Playlist.java:33-43 | equality is reflexive and symmetric, ignores name and flag, and equal playlists have equal hash codes |
| Preferences.Config.constructor | src/main/java/com/jled/playlistshuffle/Config.java:8-9 | a new configuration has no playlists and no artists |
| Preferences.Config.SetPlaylists | src/main/java/com/jled/playlistshuffle/Config.java:11-17 | the playlists read back as given; the artists are unchanged |
| Preferences.Config.SetArtists | src/main/java/com/jled/playlistshuffle/Config.java:19-25 | the artists read back as given; the playlists are unchanged |
| Preferences.JsonFileDb.Load | src/main/java/com/jled/playlistshuffle/JsonFileDb.java:15-18 | a missing file loads as an empty configuration; otherwise the stored lists are loaded |
| Preferences.JsonFileDb.Save | src/main/java/com/jled/playlistshuffle/JsonFileDb.java:21-24 | after saving, the store holds exactly the configuration's lists |
| Preferences.JsonFileDb.LoadPlaylists | src/main/java/com/jled/playlistshuffle/JsonFileDb.java:27-29 | the stored playlists, empty without a file |
| Preferences.JsonFileDb.LoadArtists | src/main/java/com/jled/playlistshuffle/JsonFileDb.java:32-34 | the stored artists, empty without a file |
| Preferences.JsonFileDb.SavePlaylists | src/main/java/com/jled/playlistshuffle/JsonFileDb.java:37-41 | the stored playlists become the given list; the stored artists are unchanged |
| Preferences.JsonFileDb.SaveArtists | src/main/java/com/jled/playlistshuffle/JsonFileDb.java:44-48 | the stored artists become the given list; the stored playlists are unchanged |
| Triage.Trim | src/main/java/com/jled/playlistshuffle/Main.java:228 | `trim()` yields the piece of the answer between a leading and a trailing run of characters up to U+0020, starting and ending above U+0020 |
| Triage.TrimLeftDropsBlanks | src/main/java/com/jled/playlistshuffle/Main.java:228 | the front of the answer loses exactly its run of characters up to U+0020 |
| Triage.TrimRightDropsBlanks | src/main/java/com/jled/playlistshuffle/Main.java:228 | the back of the answer loses exactly its run of characters up to U+0020 |
| Triage.ToLower | src/main/java/com/jled/playlistshuffle/Main.java:228 | keeps the length; no capital letter is left; every capital becomes its small letter and every other character is kept |
| Triage.IsYesIff | src/main/java/com/jled/playlistshuffle/Main.java:228-229 | an answer means "include" if and only if, trimmed, it is exactly `y` or `Y` |
| Triage.TriageExtends | src/main/java/com/jled/playlistshuffle/Main.java:214-235 | triage keeps the stored list as an unchanged prefix and appends one entry per answer consumed; each appended entry has a fresh id that is not the shuffle playlist's, and its flag is true if and only if its answer means "include"; the only failure is running out of input lines |
| Triage.TriageAppendsRemote | src/main/java/com/jled/playlistshuffle/Main.java:214-235 | the appended entries are, in order, the name and id of exactly the remote entities that were not skipped when their turn came (already stored or the shuffle playlist), so at most one per remote entity |
| Triage.TriageKeepsIdsUnique | src/main/java/com/jled/playlistshuffle/Main.java:219-232 | a stored list without duplicate ids stays so |
| Triage.TriageCovers | src/main/java/com/jled/playlistshuffle/Main.java:214-235 | after triage, every remote entity other than the shuffle playlist has an entry with its id |
| Triage.TriageIdempotent | src/main/java/com/jled/playlistshuffle/Main.java:219-221 | triaging the same remote entities again changes nothing and asks nothing |
| Triage.TriageAppend | src/main/java/com/jled/playlistshuffle/Main.java:214-235 | triaging two lists one after the other is triaging their concatenation |
| Triage.TriageItems | src/main/java/com/jled/playlistshuffle/Main.java:214-235 | the loop that builds a resource per new entity computes the triage |
| Triage.ListPlaylists | src/main/java/com/jled/playlistshuffle/Main.java:206-241 | the first page of the user's playlists is triaged against the stored ones; on success only the stored playlists are replaced by the result; on failure the store is untouched |
| Triage.FollowedIsTriageOfAllPages | src/main/java/com/jled/playlistshuffle/Main.java:387-420 | the artist loop triages the items of every followed-artist page in order, up to an empty page or a missing cursor |
| Triage.ListArtists | src/main/java/com/jled/playlistshuffle/Main.java:380-427 | the artist triage over the cursor pages; the first request has no cursor and each later one uses the previous page's next link; on success only the stored artists are replaced; on failure the store is untouched |
| ArtistTopTracks.InsertPermutes | src/main/java/com/jled/playlistshuffle/Main.java:486 | inserting into the sorted list adds exactly that track |
| ArtistTopTracks.InsertSorted | src/main/java/com/jled/playlistshuffle/Main.java:486 | inserting keeps the list ordered by popularity, most popular first |
| ArtistTopTracks.InsertStable | src/main/java/com/jled/playlistshuffle/Main.java:486 | the inserted track comes before every other track of its popularity |
| ArtistTopTracks.SortByPopularity | src/main/java/com/jled/playlistshuffle/Main.java:486 | the sort orders by popularity, most popular first, and is a permutation |
| ArtistTopTracks.SortIsStable | src/main/java/com/jled/playlistshuffle/Main.java:486 | tracks of equal popularity keep their fetch order |
| ArtistTopTracks.TopUris | src/main/java/com/jled/playlistshuffle/Main.java:486-487 | min(25, n) URIs, each the URI of a fetched track |
| ArtistTopTracks.TopUrisSelectMostPopular | src/main/java/com/jled/playlistshuffle/Main.java:486-487 | min(25, n) URIs are chosen; together with the rest they are the fetched tracks; no track left out is more popular than a chosen one |
| ArtistTopTracks.CollectTrackIds | src/main/java/com/jled/playlistshuffle/Main.java:449-461 | the track ids of every album in album order; a failed album contributes none |
| ArtistTopTracks.FetchTracks | src/main/java/com/jled/playlistshuffle/Main.java:467-480 | the full tracks of consecutive batches of at most 50 ids that cover every id, in batch order; a failed batch contributes none |
| ArtistTopTracks.GetArtistTopTracks | src/main/java/com/jled/playlistshuffle/Main.java:429-488 | a failed album page propagates; otherwise the top tracks of everything fetched, at most 25 |
| ArtistTopTracks.TracksFromAlbum | src/main/java/com/jled/playlistshuffle/Main.java:490-495 | fails if and only if the first track page fails; otherwise a prefix of the album's listing, all of it when there is a single page |
| TrackUris.AddTrackPrefix | src/main/java/com/jled/playlistshuffle/Main.java:506 | the URI is `spotify:track:` followed by the id |
| TrackUris.StripTrackPrefix | src/main/java/Main.java:337-342 | accepted if and only if the text starts with `spotify:track:`, yielding the rest; anything else is rejected with the text in the message |
| TrackUris.PrefixRoundTrip | src/main/java/Main.java:337-342 | stripping undoes prefixing, and prefixing undoes a successful strip |
| TrackUris.AddTrackPrefixInjective | src/main/java/com/jled/playlistshuffle/Main.java:506 | distinct ids give distinct URIs |
| OAuthCallback.FirstIndex | src/main/java/com/jled/playlistshuffle/Main.java:131 | the position of the first occurrence of the separator |
| OAuthCallback.SegmentsJoin | src/main/java/com/jled/playlistshuffle/Main.java:131-132 | splitting loses nothing: the pieces joined with the separator are the input |
| OAuthCallback.SegmentsExcludeSeparator | src/main/java/com/jled/playlistshuffle/Main.java:131-132 | no piece holds the separator |
| OAuthCallback.DropTrailingEmpty | src/main/java/com/jled/playlistshuffle/Main.java:131-132 | Java's split drops only trailing empty pieces, so the last piece kept is non-empty |
| OAuthCallback.JavaSplit | src/main/java/com/jled/playlistshuffle/Main.java:131-132 | `split` on one character: the input itself when the separator is absent; otherwise the pieces with only trailing empty ones removed; no piece holds the separator |
| OAuthCallback.FirstCodeParam | src/main/java/com/jled/playlistshuffle/Main.java:131-132 | the first parameter starting with `code=`, none if and only if no parameter does |
| OAuthCallback.HandleCallback | src/main/java/com/jled/playlistshuffle/Main.java:128-163 | 400 if and only if no parameter starts with `code=`; a failure if and only if the query is missing or the first `code=` parameter has nothing but `=` after the key; otherwise the exchanged code is the text of that parameter after the key up to the next `=` |
| OAuthCallback.LegacyHandleCallback | src/main/java/Main.java:100-109 | the first version's loop takes the same code as the stream-based handler |
| OAuthCallback.TakeUntil | src/main/java/com/jled/playlistshuffle/Main.java:132 | the text before the first `=` |
| OAuthCallback.SegmentsAllEmpty | src/main/java/com/jled/playlistshuffle/Main.java:132 | every piece of the split at `=` is empty if and only if the text is nothing but `=` |
| OAuthCallback.CodeOfParam | src/main/java/com/jled/playlistshuffle/Main.java:131-132 | for a `code=` parameter, the handler fails if and only if only `=` follows the key; otherwise the code is the text between the first and the second `=` |
| OAuthCallback.CodeRoundTrip | src/main/java/com/jled/playlistshuffle/Main.java:128-138 | a query made of one `code` parameter with a non-empty value free of `=` and `&` hands that value to the token exchange |
| Aggregation.CollectIsUnion | src/main/java/com/jled/playlistshuffle/Main.java:273-283 | gathering sources without failure holds exactly their tracks: each source answered, each one's tracks are in, and every track in came from one of them |
| Aggregation.CollectStopsAt | src/main/java/com/jled/playlistshuffle/Main.java:280 | a failing source ends the gathering where it occurs |
| Aggregation.SavedAlbumsFrom | src/main/java/com/jled/playlistshuffle/Main.java:497-513 | the saved-album walk keeps what was gathered before it, and once failed stays failed |
| Aggregation.SavedAlbumsIsWalk | src/main/java/com/jled/playlistshuffle/Main.java:497-513 | page by page is album by album over the whole walk: the gathering fails when the walk does, and otherwise gathers every album of every page up to the first without a next link |
| Aggregation.SavedAlbumsUnion | src/main/java/com/jled/playlistshuffle/Main.java:497-513 | without failure, every album on a walked page answered and each of its track ids is in as a `spotify:track:` URI, and every URI in is such a URI |
| Aggregation.SavedAlbumUrisArePrefixed | src/main/java/com/jled/playlistshuffle/Main.java:497-513 | every URI that the saved albums contribute starts with `spotify:track:` |
| Aggregation.ShuffleSet.AddAll | src/main/java/com/jled/playlistshuffle/Main.java:85 | the set grows by exactly the added items |
| Aggregation.ShuffleSet.Clear | src/main/java/com/jled/playlistshuffle/Main.java:96 | the set becomes empty |
| Aggregation.ShuffleSet.AddSources | src/main/java/com/jled/playlistshuffle/Main.java:273-283 | the set grows by what the sources gather, up to the first failure, which propagates |
| Aggregation.ShuffleSet.AddPlaylistsToShuffleList | src/main/java/com/jled/playlistshuffle/Main.java:272-292 | after the playlist triage, the set grows by the tracks of every included playlist, then by the liked songs; a failure propagates, and a failed triage leaves set and store untouched |
| Aggregation.ShuffleSet.AddFollowedArtistsToShuffleList | src/main/java/com/jled/playlistshuffle/Main.java:294-303 | after the artist triage, the set grows by the top tracks of every stored artist; a failure propagates |
| Aggregation.ShuffleSet.AddUserAlbums | src/main/java/com/jled/playlistshuffle/Main.java:497-513 | the set grows by the prefixed track ids of every saved album, page by page, until a page without a next link; a failure propagates |
| Aggregation.ShuffleSet.ShuffleThePlaylist | src/main/java/com/jled/playlistshuffle/Main.java:351-361 | the written list holds every track of the set exactly once; a failed replace writes nothing; otherwise it is sent in batches of 100, the same prefix and success rule as the batch writer |
| Aggregation.ShuffleSet.AggregateSources | src/main/java/com/jled/playlistshuffle/Main.java:84-91 | starting from the empty set, the set becomes the union of all the sources, or the first failure propagates |
| Aggregation.ShuffleSet.Run | src/main/java/com/jled/playlistshuffle/Main.java:71-100 | the shuffle playlist is rewritten with every track of the union exactly once; the run succeeds if and only if every step does; the set then holds the reloaded playlist; the store ends with the two triaged lists |
| Aggregation.AggregatedIsUnion | src/main/java/com/jled/playlistshuffle/Main.java:84-91 | the set holds the shuffle playlist's tracks, every included playlist's tracks, the liked songs, every stored artist's top tracks and the track URI of every track of every saved album; each track in it comes from one of these |
| LegacyMain.FilterOutDuplicates | src/main/java/Main.java:378-389 | the loop computes the filter of the source by the existing tracks |
| LegacyMain.WithoutCounts | src/main/java/Main.java:378-389 | each track not in the existing list keeps its number of occurrences, repeats included; every other track is removed |
| LegacyMain.WithoutMembership | src/main/java/Main.java:378-389 | a track is in the result if and only if it is in the source and not among the existing tracks |
| LegacyMain.WithoutIsSubsequence | src/main/java/Main.java:383-387 | the result is a subsequence of the source, no longer than it |
| LegacyMain.GetLikedSongs | src/main/java/Main.java:233-268 | requests at offsets 0, 50, 100, ... until an empty page or a failure |
| LegacyMain.LikedSongsShape | src/main/java/Main.java:241-265 | the liked songs are the items of the pages before the first empty or failed one, in order |
| LegacyMain.StoppedStays | src/main/java/Main.java:271-312 | after a failure, no further playlist is processed |
| LegacyMain.AddPlaylistsAppend | src/main/java/Main.java:278-306 | processing two lists of playlists in turn is processing their concatenation |
| LegacyMain.AddPlaylistToShuffleList | src/main/java/Main.java:271-312 | the loop computes the aggregation over the included playlists and then the liked songs |
| LegacyMain.AddSourceConsistent | src/main/java/Main.java:283-295 | the running list grows by exactly the filtered tracks, and a batch is added only when it is non-empty and new |
| LegacyMain.AddPlaylistsConsistent | src/main/java/Main.java:278-296 | the running list stays the initial list followed by everything added |
| LegacyMain.AggregationConsistent | src/main/java/Main.java:271-312 | from the shuffle playlist's tracks, the running list is those tracks followed by every non-empty batch of new tracks added |
| LegacyMain.OnlyIncludedContribute | src/main/java/Main.java:279-281 | only the included playlists contribute |
| LegacyMain.DeDupeAndShuffleThePlaylist | src/main/java/Main.java:391-417 | the rewrite is a distinct permutation of the playlist's tracks; the replace happens if and only if the read succeeded; the batches follow the batch writer's prefix and success rule |
| LegacyMain.RewriteLength | src/main/java/Main.java:398-404 | the rewritten playlist has as many tracks as the playlist had distinct ones, and the same tracks |
| LegacyMain.TriagePlaylists | src/main/java/Main.java:199-220 | the triage over `Playlist` objects computes the same triage as the current version |
| LegacyMain.ListPlaylists | src/main/java/Main.java:191-231 | on success the triaged list is returned and saved; any failure gives an empty list and saves nothing |

## Left out

- The OAuth flow and token handling are left out: the local HTTP server, the
  latch, the token file, token refresh and validity. Only the code
  extraction is modelled.
- The client library's request objects and `Paging` objects are replaced by
  their answers. The model does not encode the JSON body sent to the API.
- Concurrency is left out: the `CompletableFuture` tasks append to
  synchronized lists in the order they complete. The model fixes one such
  order, request order, so the interleavings of other completion orders are
  not captured. A failed task contributes nothing.
- `Thread.sleep` backoff is left out. Only the attempt count is modelled.
- `Collections.shuffle` is left out as a random choice. The model leaves the
  order open and states only that each track appears once.
- `updatePlaylistImage` is left out: it loads a resource, Base64-encodes an
  image and uploads it, all I/O.
- Jackson serialisation is left out. The stored file of the current
  `JsonFileDb` is a field holding an optional configuration.
- The first version's `JsonFileDb` is left out, since it is only reads and
  writes through `ObjectMapper`. Its `listPlaylists` takes the stored list as
  input and returns the list to save.
- Logging, console prompts and `System.out` are left out. The input lines
  are a sequence of strings.
- `Math.ceil` on doubles only feeds a log line; it is modelled as integer
  ceiling division.
- Triage.ToLower: models ASCII case mapping only; `String.toLowerCase` also
  maps other Unicode letters.
- Resources.Int32: string hash codes are computed over the characters of a
  Dafny string, not over UTF-16 code units.
- OAuthCallback.HandleCallback: the query string is taken as given. Its
  percent-decoding by `URI.getQuery` is not modelled.
- Aggregation.ShuffleSet.Run: the effects of the token exchange, the
  playlist image and the logging between the steps are not modelled.
- The first version's `getPlaylist` and `main` only print or call the
  modelled operations in sequence, so they have no model of their own.
