/** Triage of remote playlists and followed artists (`listPlaylists`,
    `listArtists`): every remote entity not stored yet, other than the shuffle
    playlist itself, is shown to the operator once, and the answer decides
    whether it takes part in the shuffle. */
module Triage {
  import opened Outcomes
  import opened Seqs
  import opened Resources
  import Pagination
  import opened Preferences

  /** A playlist or artist as the remote lists it. */
  datatype RemoteEntity = RemoteEntity(name: string, id: string)

  // ---------------------------------------------------------------------------
  // The operator's answer.

  function TrimLeft(s: string): string
    decreases |s|
  {
    if |s| > 0 && s[0] <= ' ' then TrimLeft(s[1..]) else s
  }

  function TrimRight(s: string): string
    decreases |s|
  {
    if |s| > 0 && s[|s| - 1] <= ' ' then TrimRight(s[..|s| - 1]) else s
  }

  /** Trimming the front drops a run of low characters and stops at the first
      character above U+0020. */
  lemma {:induction false} TrimLeftDropsBlanks(s: string)
    ensures var r := TrimLeft(s);
      && |r| <= |s| && r == s[|s| - |r|..]
      && (r == [] || r[0] > ' ')
      && forall k :: 0 <= k < |s| - |r| ==> s[k] <= ' '
    decreases |s|
  {
    if |s| > 0 && s[0] <= ' ' {
      TrimLeftDropsBlanks(s[1..]);
    }
  }

  /** Trimming the back drops a run of low characters and stops at the last
      character above U+0020. */
  lemma {:induction false} TrimRightDropsBlanks(s: string)
    ensures var r := TrimRight(s);
      && |r| <= |s| && r == s[..|r|]
      && (r == [] || r[|r| - 1] > ' ')
      && forall k :: |r| <= k < |s| ==> s[k] <= ' '
    decreases |s|
  {
    if |s| > 0 && s[|s| - 1] <= ' ' {
      TrimRightDropsBlanks(s[..|s| - 1]);
    }
  }

  /** `String.trim()`: drops every character up to U+0020 at both ends. The
      result is a piece of `s` that starts and ends with a character above
      U+0020, with nothing but such low characters around it. */
  function Trim(s: string): (r: string)
    ensures r == [] || (r[0] > ' ' && r[|r| - 1] > ' ')
    ensures exists a ::
      && 0 <= a <= |s| && r <= s[a..]
      && (forall k :: 0 <= k < a ==> s[k] <= ' ')
      && (forall k :: a + |r| <= k < |s| ==> s[k] <= ' ')
  {
    var l := TrimLeft(s);
    var r := TrimRight(l);
    TrimLeftDropsBlanks(s);
    TrimRightDropsBlanks(l);
    var a := |s| - |l|;
    assert r <= s[a..];
    assert forall k :: a + |r| <= k < |s| ==> s[k] <= ' ' by {
      forall k | a + |r| <= k < |s| ensures s[k] <= ' ' {
        assert s[k] == l[k - a];
      }
    }
    r
  }

  function ToLowerChar(c: char): char {
    if 'A' <= c <= 'Z' then (c as int + 32) as char else c
  }

  /** `String.toLowerCase()`, on ASCII letters: no capital is left, every
      capital becomes its small letter and every other character is kept. */
  function ToLower(s: string): (r: string)
    ensures |r| == |s|
    ensures forall i :: 0 <= i < |r| ==> !('A' <= r[i] <= 'Z')
    ensures forall i :: 0 <= i < |s| && !('A' <= s[i] <= 'Z') ==> r[i] == s[i]
    ensures forall i :: 0 <= i < |s| && 'A' <= s[i] <= 'Z' ==> r[i] as int - s[i] as int == 'a' as int - 'A' as int
  {
    seq(|s|, i requires 0 <= i < |s| => ToLowerChar(s[i]))
  }

  /** The answer line means "include": trimmed and lower-cased it reads "y". */
  predicate IsYes(answer: string) {
    ToLower(Trim(answer)) == "y"
  }

  /** Exactly "y" or "Y", surrounded by any blanks or control characters, is a yes. */
  lemma IsYesIff(answer: string)
    ensures IsYes(answer) <==> Trim(answer) == "y" || Trim(answer) == "Y"
  {
    var t := Trim(answer);
    if t == "y" || t == "Y" {
      assert ToLower(t) == [ToLower(t)[0]];
    }
    if IsYes(answer) {
      assert |t| == 1 && ToLower(t)[0] == 'y';
      assert t == [t[0]];
    }
  }

  // ---------------------------------------------------------------------------
  // Specification of a triage pass.

  /** `list.contains(resource)`: the stored records of one class are equal
      exactly when their ids are. */
  predicate ContainsId(data: seq<Entity>, id: JString) {
    exists i :: 0 <= i < |data| && data[i].id == id
  }

  /** The entity is passed over without a prompt. */
  predicate Skipped(data: seq<Entity>, e: RemoteEntity, shuffleId: JString) {
    ContainsId(data, Some(e.id)) || Some(e.id) == shuffleId
  }

  /** The records so far and how many answer lines have been read. */
  datatype Triaged = Triaged(data: seq<Entity>, consumed: nat)

  /** One remote entity: skipped, or appended with the next answer's verdict;
      no answer left is `Scanner`'s `NoSuchElementException`. */
  function TriageStep(t: Triaged, e: RemoteEntity, answers: seq<string>, shuffleId: JString): Response<Triaged> {
    if Skipped(t.data, e, shuffleId) then Ok(t)
    else if t.consumed >= |answers| then Err(NoInputLine)
    else Ok(Triaged(t.data + [Entity(Some(e.name), Some(e.id), IsYes(answers[t.consumed]))], t.consumed + 1))
  }

  /** The triage of `remote`, in order, starting from `start`. */
  function TriageFrom(start: Triaged, remote: seq<RemoteEntity>, answers: seq<string>, shuffleId: JString): Response<Triaged>
    decreases |remote|
  {
    if remote == [] then Ok(start)
    else match TriageFrom(start, remote[..|remote| - 1], answers, shuffleId)
      case Err(e) => Err(e)
      case Ok(t) => TriageStep(t, remote[|remote| - 1], answers, shuffleId)
  }

  predicate NoDuplicateIds(data: seq<Entity>) {
    forall i, j :: 0 <= i < j < |data| ==> data[i].id != data[j].id
  }

  /** Every record appended from position `from` on carries an id that no
      earlier record has, differs from the shuffle playlist's id, and the
      verdict of the answer read for it. */
  predicate AppendedFresh(data: seq<Entity>, from: nat, firstAnswer: nat, answers: seq<string>, shuffleId: JString) {
    && from <= |data|
    && firstAnswer + (|data| - from) <= |answers|
    && forall k :: from <= k < |data| ==>
         && data[k].id.Some?
         && data[k].id != shuffleId
         && !ContainsId(data[..k], data[k].id)
         && data[k].includeInShuffle == IsYes(answers[firstAnswer + k - from])
  }

  /** A triage pass keeps the records it started with as an unchanged prefix,
      reads exactly one answer per record it appends, and appends only records
      with new ids other than the shuffle playlist's. The only failure is
      running out of answers. */
  lemma {:induction false} TriageExtends(start: Triaged, remote: seq<RemoteEntity>, answers: seq<string>, shuffleId: JString)
    requires start.consumed <= |answers|
    ensures var r := TriageFrom(start, remote, answers, shuffleId);
      && (r.Err? ==> r.error == NoInputLine)
      && (r.Ok? ==>
            && |r.value.data| == |start.data| + (r.value.consumed - start.consumed)
            && r.value.consumed >= start.consumed
            && r.value.data[..|start.data|] == start.data
            && AppendedFresh(r.value.data, |start.data|, start.consumed, answers, shuffleId))
    decreases |remote|
  {
    if remote != [] {
      var init := remote[..|remote| - 1];
      var e := remote[|remote| - 1];
      TriageExtends(start, init, answers, shuffleId);
      var prev := TriageFrom(start, init, answers, shuffleId);
      if prev.Ok? {
        var t := prev.value;
        if !Skipped(t.data, e, shuffleId) && t.consumed < |answers| {
          var d := t.data + [Entity(Some(e.name), Some(e.id), IsYes(answers[t.consumed]))];
          assert d[..|t.data|] == t.data;
          assert d[..|start.data|] == t.data[..|start.data|];
          forall k | |start.data| <= k < |d|
            ensures d[k].id.Some? && d[k].id != shuffleId && !ContainsId(d[..k], d[k].id)
            ensures d[k].includeInShuffle == IsYes(answers[start.consumed + k - |start.data|])
          {
            if k < |t.data| {
              assert d[..k] == t.data[..k];
            } else {
              assert d[..k] == t.data;
            }
          }
        }
      }
    }
  }

  /** How many of the indices in `idx` lie below `i`. */
  function CountBelow(idx: seq<nat>, i: nat): (r: nat)
    ensures r <= |idx|
  {
    if idx == [] then 0
    else CountBelow(idx[..|idx| - 1], i) + (if idx[|idx| - 1] < i then 1 else 0)
  }

  lemma {:induction false} CountBelowAll(idx: seq<nat>, n: nat)
    requires forall j :: 0 <= j < |idx| ==> idx[j] < n
    ensures CountBelow(idx, n) == |idx|
  {
    if idx != [] {
      CountBelowAll(idx[..|idx| - 1], n);
    }
  }

  /** The records from position `from` on were drawn from `remote` at the
      strictly increasing positions `idx`, name and id copied; every entity of
      `remote` not drawn was skipped at its turn, against the records stored
      before it. */
  predicate DrawnFrom(data: seq<Entity>, from: nat, remote: seq<RemoteEntity>, idx: seq<nat>, shuffleId: JString) {
    && from <= |data|
    && |idx| == |data| - from
    && (forall j :: 0 <= j < |idx| ==>
          && idx[j] < |remote|
          && data[from + j].name == Some(remote[idx[j]].name)
          && data[from + j].id == Some(remote[idx[j]].id))
    && (forall i, j :: 0 <= i < j < |idx| ==> idx[i] < idx[j])
    && (forall i :: 0 <= i < |remote| && i !in idx ==>
          Skipped(data[..from + CountBelow(idx, i)], remote[i], shuffleId))
  }

  /** A skipped entity extends the drawing without a record. */
  lemma DrawnSkip(data: seq<Entity>, from: nat, init: seq<RemoteEntity>, idx: seq<nat>, e: RemoteEntity, shuffleId: JString)
    requires DrawnFrom(data, from, init, idx, shuffleId)
    requires Skipped(data, e, shuffleId)
    ensures DrawnFrom(data, from, init + [e], idx, shuffleId)
  {
    var remote := init + [e];
    CountBelowAll(idx, |init|);
    assert data[..from + |idx|] == data;
    forall i | 0 <= i < |remote| && i !in idx
      ensures Skipped(data[..from + CountBelow(idx, i)], remote[i], shuffleId)
    {
      if i < |init| {
        assert remote[i] == init[i];
      }
    }
  }

  /** An entity that is not skipped extends the drawing with its record. */
  lemma DrawnAppend(data: seq<Entity>, from: nat, init: seq<RemoteEntity>, idx: seq<nat>, e: RemoteEntity, x: Entity, shuffleId: JString)
    requires DrawnFrom(data, from, init, idx, shuffleId)
    requires x.name == Some(e.name) && x.id == Some(e.id)
    ensures DrawnFrom(data + [x], from, init + [e], idx + [|init|], shuffleId)
  {
    var remote := init + [e];
    var d := data + [x];
    var idx' := idx + [|init|];
    assert idx'[..|idx|] == idx;
    forall j | 0 <= j < |idx'|
      ensures idx'[j] < |remote| && d[from + j].name == Some(remote[idx'[j]].name) && d[from + j].id == Some(remote[idx'[j]].id)
    {
      if j < |idx| {
        assert remote[idx[j]] == init[idx[j]];
      }
    }
    forall i | 0 <= i < |remote| && i !in idx'
      ensures Skipped(d[..from + CountBelow(idx', i)], remote[i], shuffleId)
    {
      assert i < |init| && remote[i] == init[i];
      assert CountBelow(idx', i) == CountBelow(idx, i);
      assert d[..from + CountBelow(idx, i)] == data[..from + CountBelow(idx, i)];
    }
  }

  /** The records a successful pass appends are exactly the remote entities
      not skipped at their turn, in the order they were listed, so at most one
      per entity. */
  lemma {:induction false} TriageAppendsRemote(start: Triaged, remote: seq<RemoteEntity>, answers: seq<string>, shuffleId: JString)
    ensures var r := TriageFrom(start, remote, answers, shuffleId);
      r.Ok? ==>
        && |start.data| <= |r.value.data| <= |start.data| + |remote|
        && exists idx :: DrawnFrom(r.value.data, |start.data|, remote, idx, shuffleId)
    decreases |remote|
  {
    var r := TriageFrom(start, remote, answers, shuffleId);
    var from := |start.data|;
    if remote == [] {
      assert start.data[..from] == start.data;
      assert DrawnFrom(start.data, from, remote, [], shuffleId);
    } else if r.Ok? {
      var n := |remote| - 1;
      var init := remote[..n];
      var e := remote[n];
      assert remote == init + [e];
      TriageAppendsRemote(start, init, answers, shuffleId);
      var t := TriageFrom(start, init, answers, shuffleId).value;
      var idx :| DrawnFrom(t.data, from, init, idx, shuffleId);
      if Skipped(t.data, e, shuffleId) {
        DrawnSkip(t.data, from, init, idx, e, shuffleId);
      } else {
        var x := Entity(Some(e.name), Some(e.id), IsYes(answers[t.consumed]));
        DrawnAppend(t.data, from, init, idx, e, x, shuffleId);
      }
    }
  }

  /** Records without duplicate ids stay without duplicate ids. */
  lemma TriageKeepsIdsUnique(start: Triaged, remote: seq<RemoteEntity>, answers: seq<string>, shuffleId: JString)
    requires start.consumed <= |answers|
    requires NoDuplicateIds(start.data)
    ensures TriageFrom(start, remote, answers, shuffleId).Ok? ==> NoDuplicateIds(TriageFrom(start, remote, answers, shuffleId).value.data)
  {
    TriageExtends(start, remote, answers, shuffleId);
    var r := TriageFrom(start, remote, answers, shuffleId);
    if r.Ok? {
      var d := r.value.data;
      var n := |start.data|;
      forall i, j | 0 <= i < j < |d| ensures d[i].id != d[j].id {
        if j >= n {
          assert d[..j][i] == d[i];
        } else {
          assert d[i] == start.data[i] && d[j] == start.data[j];
        }
      }
    }
  }

  /** After a successful pass every remote entity is stored, or is the shuffle
      playlist. */
  lemma {:induction false} TriageCovers(start: Triaged, remote: seq<RemoteEntity>, answers: seq<string>, shuffleId: JString)
    requires start.consumed <= |answers|
    ensures TriageFrom(start, remote, answers, shuffleId).Ok? ==>
      forall e :: e in remote ==> Skipped(TriageFrom(start, remote, answers, shuffleId).value.data, e, shuffleId)
    decreases |remote|
  {
    if remote != [] {
      var init := remote[..|remote| - 1];
      var last := remote[|remote| - 1];
      TriageCovers(start, init, answers, shuffleId);
      TriageExtends(start, init, answers, shuffleId);
      var prev := TriageFrom(start, init, answers, shuffleId);
      var r := TriageFrom(start, remote, answers, shuffleId);
      if r.Ok? {
        var t := prev.value;
        var d := r.value.data;
        assert d[..|t.data|] == t.data;
        forall e | e in remote ensures Skipped(d, e, shuffleId) {
          if e in init {
            if ContainsId(t.data, Some(e.id)) {
              var i :| 0 <= i < |t.data| && t.data[i].id == Some(e.id);
              assert d[i] == t.data[i];
            }
          } else {
            assert e == last;
            if !Skipped(t.data, e, shuffleId) {
              assert d[|d| - 1].id == Some(e.id);
            }
          }
        }
      }
    }
  }

  /** Running the pass again over the same remote entities, starting from its
      own result, prompts for nothing and changes nothing. */
  lemma TriageIdempotent(start: Triaged, remote: seq<RemoteEntity>, answers: seq<string>, again: seq<string>, shuffleId: JString)
    requires start.consumed <= |answers|
    requires TriageFrom(start, remote, answers, shuffleId).Ok?
    ensures var t := TriageFrom(start, remote, answers, shuffleId).value;
      TriageFrom(Triaged(t.data, 0), remote, again, shuffleId) == Ok(Triaged(t.data, 0))
  {
    var t := TriageFrom(start, remote, answers, shuffleId).value;
    TriageCovers(start, remote, answers, shuffleId);
    AllSkipped(Triaged(t.data, 0), remote, again, shuffleId);
  }

  lemma {:induction false} AllSkipped(t: Triaged, remote: seq<RemoteEntity>, answers: seq<string>, shuffleId: JString)
    requires forall e :: e in remote ==> Skipped(t.data, e, shuffleId)
    ensures TriageFrom(t, remote, answers, shuffleId) == Ok(t)
    decreases |remote|
  {
    if remote != [] {
      var init := remote[..|remote| - 1];
      assert forall e :: e in init ==> e in remote;
      AllSkipped(t, init, answers, shuffleId);
    }
  }

  /** Triage of two consecutive lists is triage of the first followed by
      triage of the second. */
  lemma {:induction false} TriageAppend(start: Triaged, a: seq<RemoteEntity>, b: seq<RemoteEntity>, answers: seq<string>, shuffleId: JString)
    ensures TriageFrom(start, a + b, answers, shuffleId) ==
      match TriageFrom(start, a, answers, shuffleId)
      case Err(e) => Err(e)
      case Ok(t) => TriageFrom(t, b, answers, shuffleId)
    decreases |b|
  {
    if b == [] {
      assert a + b == a;
    } else {
      assert (a + b)[..|a + b| - 1] == a + b[..|b| - 1];
      assert (a + b)[|a + b| - 1] == b[|b| - 1];
      TriageAppend(start, a, b[..|b| - 1], answers, shuffleId);
    }
  }

  // ---------------------------------------------------------------------------
  // The triage loops.

  /** Triages one list of remote entities as the loops of `listPlaylists` and
      `listArtists` do: a new resource of class `c` is filled from the remote
      entity, skipped when already stored or when it is the shuffle playlist,
      and otherwise flagged from the next answer line and appended. */
  method TriageItems(c: ResourceClass, start: Triaged, items: seq<RemoteEntity>, answers: seq<string>, shuffleId: JString)
    returns (r: Response<Triaged>)
    ensures r == TriageFrom(start, items, answers, shuffleId)
  {
    var data := start.data;
    var used: nat := start.consumed;
    for i := 0 to |items|
      invariant TriageFrom(start, items[..i], answers, shuffleId) == Ok(Triaged(data, used))
    {
      assert items[..i + 1][..i] == items[..i];
      var resource := new SpotifyResource(c);
      resource.SetName(Some(items[i].name));
      resource.SetId(Some(items[i].id));
      assert resource.id == Some(items[i].id);
      if (exists j :: 0 <= j < |data| && data[j].id == resource.id) || resource.id == shuffleId {
        continue;
      }
      if used >= |answers| {
        assert TriageFrom(start, items[..i + 1], answers, shuffleId) == Err(NoInputLine);
        assert items == items[..i + 1] + items[i + 1..];
        TriageAppend(start, items[..i + 1], items[i + 1..], answers, shuffleId);
        return Err(NoInputLine);
      }
      resource.SetIncludeInShuffle(IsYes(answers[used]));
      data := data + [resource.View()];
      used := used + 1;
    }
    assert items[..|items|] == items;
    r := Ok(Triaged(data, used));
  }

  /** `listPlaylists`: triages the first page of the user's playlists against
      the stored playlists, saves the result and returns the stored list. A
      failure stores nothing. */
  method ListPlaylists(db: JsonFileDb, userPlaylists: Response<seq<RemoteEntity>>, answers: seq<string>, shuffleId: JString)
    returns (r: Response<Triaged>)
    modifies db
    ensures userPlaylists.Err? ==> r == Err(userPlaylists.error)
    ensures userPlaylists.Ok? ==> r == TriageFrom(Triaged(old(db.StoredPlaylists()), 0), userPlaylists.value, answers, shuffleId)
    ensures r.Ok? ==> db.StoredPlaylists() == r.value.data && db.StoredArtists() == old(db.StoredArtists())
    ensures r.Err? ==> db.file == old(db.file)
  {
    var playlistData := db.LoadPlaylists();
    if userPlaylists.Err? {
      return Err(userPlaylists.error);
    }
    r := TriageItems(PlaylistClass, Triaged(playlistData, 0), userPlaylists.value, answers, shuffleId);
    if r.Ok? {
      db.SavePlaylists(r.value.data);
      var reloaded := db.LoadPlaylists();
      r := Ok(Triaged(reloaded, r.value.consumed));
    }
  }

  // ---------------------------------------------------------------------------
  // The followed-artist cursor walk.

  /** The triage of the followed artists from the `k`-th page on: every page
      is triaged, and the walk stops after an empty page or one without a
      next cursor. */
  function FollowedFrom(t: Triaged, pages: seq<Response<Page<RemoteEntity>>>, k: nat, answers: seq<string>, shuffleId: JString): Response<Triaged>
    decreases |pages| - k
  {
    match PageAt(pages, k)
    case Err(e) => Err(e)
    case Ok(p) =>
      match TriageFrom(t, p.items, answers, shuffleId)
      case Err(e) => Err(e)
      case Ok(t') => if |p.items| == 0 || p.next.None? then Ok(t') else FollowedFrom(t', pages, k + 1, answers, shuffleId)
  }

  /** The number of page requests of the walk from the `k`-th one on. */
  function FollowedRequests(t: Triaged, pages: seq<Response<Page<RemoteEntity>>>, k: nat, answers: seq<string>, shuffleId: JString): nat
    decreases |pages| - k
  {
    match PageAt(pages, k)
    case Err(_) => 1
    case Ok(p) =>
      match TriageFrom(t, p.items, answers, shuffleId)
      case Err(_) => 1
      case Ok(t') => if |p.items| == 0 || p.next.None? then 1 else 1 + FollowedRequests(t', pages, k + 1, answers, shuffleId)
  }

  /** The followed artists the walk visits from the `k`-th page on, in order. */
  function FollowedItemsFrom(pages: seq<Response<Page<RemoteEntity>>>, k: nat): Response<seq<RemoteEntity>>
    decreases |pages| - k
  {
    match PageAt(pages, k)
    case Err(e) => Err(e)
    case Ok(p) => if |p.items| == 0 || p.next.None? then Ok(p.items) else Pagination.Prepend(p.items, FollowedItemsFrom(pages, k + 1))
  }

  /** A successful cursor walk triages exactly the concatenation of the pages
      it visits, as one list. */
  lemma {:induction false} FollowedIsTriageOfAllPages(t: Triaged, pages: seq<Response<Page<RemoteEntity>>>, k: nat, answers: seq<string>, shuffleId: JString)
    ensures FollowedFrom(t, pages, k, answers, shuffleId).Ok? ==>
      FollowedItemsFrom(pages, k).Ok?
      && FollowedFrom(t, pages, k, answers, shuffleId) == TriageFrom(t, FollowedItemsFrom(pages, k).value, answers, shuffleId)
    decreases |pages| - k
  {
    if FollowedFrom(t, pages, k, answers, shuffleId).Ok? {
      var p := PageAt(pages, k).value;
      var t' := TriageFrom(t, p.items, answers, shuffleId).value;
      if !(|p.items| == 0 || p.next.None?) {
        FollowedIsTriageOfAllPages(t', pages, k + 1, answers, shuffleId);
        TriageAppend(t, p.items, FollowedItemsFrom(pages, k + 1).value, answers, shuffleId);
      }
    }
  }

  /** `listArtists`: walks the followed artists page by page, passing each
      page's next cursor as the `after` of the following request, triages every
      page against the stored artists, saves the result and returns the stored
      list. A failure stores nothing. `cursors` lists the `after` values sent. */
  method ListArtists(db: JsonFileDb, pages: seq<Response<Page<RemoteEntity>>>, answers: seq<string>, shuffleId: JString)
    returns (r: Response<Triaged>, cursors: seq<JString>)
    modifies db
    ensures r == FollowedFrom(Triaged(old(db.StoredArtists()), 0), pages, 0, answers, shuffleId)
    ensures |cursors| == FollowedRequests(Triaged(old(db.StoredArtists()), 0), pages, 0, answers, shuffleId)
    ensures cursors[0] == None
    ensures forall k :: 0 <= k < |cursors| - 1 ==> PageAt(pages, k).Ok? && cursors[k + 1] == PageAt(pages, k).value.next
    ensures r.Ok? ==> db.StoredArtists() == r.value.data && db.StoredPlaylists() == old(db.StoredPlaylists())
    ensures r.Err? ==> db.file == old(db.file)
  {
    var artistData := db.LoadArtists();
    var start := Triaged(artistData, 0);
    var t := start;
    var after: JString := None;
    cursors := [];
    var k := 0;
    while true
      invariant k == |cursors| && k <= |pages|
      invariant db.file == old(db.file)
      invariant FollowedFrom(start, pages, 0, answers, shuffleId) == FollowedFrom(t, pages, k, answers, shuffleId)
      invariant FollowedRequests(start, pages, 0, answers, shuffleId) == k + FollowedRequests(t, pages, k, answers, shuffleId)
      invariant k == 0 ==> after == None
      invariant k > 0 ==> cursors[0] == None
      invariant forall j :: 0 <= j < k - 1 ==> PageAt(pages, j).Ok? && cursors[j + 1] == PageAt(pages, j).value.next
      invariant k > 0 ==> PageAt(pages, k - 1).Ok? && after == PageAt(pages, k - 1).value.next
      decreases |pages| - k
    {
      ghost var before := cursors;
      cursors := cursors + [after];
      assert cursors[0] == None;
      forall j | 0 <= j < k
        ensures PageAt(pages, j).Ok? && cursors[j + 1] == PageAt(pages, j).value.next
      {
        if j < k - 1 {
          assert cursors[j + 1] == before[j + 1];
        }
      }
      var artistPaging := PageAt(pages, k);
      if artistPaging.Err? {
        return Err(artistPaging.error), cursors;
      }
      var triaged := TriageItems(ArtistClass, t, artistPaging.value.items, answers, shuffleId);
      if triaged.Err? {
        return Err(triaged.error), cursors;
      }
      t := triaged.value;
      after := artistPaging.value.next;
      if !(|artistPaging.value.items| > 0 && after != None) {
        break;
      }
      k := k + 1;
    }
    db.SaveArtists(t.data);
    var reloaded := db.LoadArtists();
    r := Ok(Triaged(reloaded, t.consumed));
  }
}
