/** The batch writer (`addTracksInChunks`): appends a list of track URIs to the
    shuffle playlist in consecutive requests of at most 100 URIs. */
module BatchWriter {
  import opened Outcomes
  import opened Seqs

  /** The remote API's per-call maximum. */
  const MaxTracksPerRequest: nat := 100

  function Min(a: int, b: int): int {
    if a < b then a else b
  }

  /** `s` cut into consecutive runs of `n` elements, the last run possibly shorter. */
  function Chunks<T>(s: seq<T>, n: nat): seq<seq<T>>
    requires n > 0
    decreases |s|
  {
    if |s| == 0 then [] else if |s| <= n then [s] else [s[..n]] + Chunks(s[n..], n)
  }

  /** Concatenating the chunks in order gives back the list. */
  lemma {:induction false} ChunksFlatten<T>(s: seq<T>, n: nat)
    requires n > 0
    ensures Flatten(Chunks(s, n)) == s
    decreases |s|
  {
    if |s| == 0 {
    } else if |s| <= n {
      FlattenSingle(s);
    } else {
      ChunksFlatten(s[n..], n);
      assert Flatten(Chunks(s, n)) == s[..n] + Flatten(Chunks(s[n..], n));
      assert s[..n] + s[n..] == s;
    }
  }

  /** Every chunk holds between 1 and `n` elements. */
  lemma {:induction false} ChunksSizes<T>(s: seq<T>, n: nat)
    requires n > 0
    ensures forall c :: c in Chunks(s, n) ==> 1 <= |c| <= n
    decreases |s|
  {
    if |s| > n {
      ChunksSizes(s[n..], n);
    }
  }

  /** There are `ceil(|s| / n)` chunks; an empty list gives none. */
  lemma {:induction false} ChunksCount<T>(s: seq<T>, n: nat)
    requires n > 0
    ensures |Chunks(s, n)| == CeilDiv(|s|, n)
    ensures |Chunks(s, n)| == 0 <==> |s| == 0
    decreases |s|
  {
    if |s| > n {
      ChunksCount(s[n..], n);
      CeilDivStep(|s| - n, n);
    } else if |s| > 0 {
      CeilDivSmall(|s|, n);
    }
  }

  /** Chunking from position `i`: the first chunk runs to `min(i + n, |s|)`. */
  lemma ChunksStep<T>(s: seq<T>, n: nat, i: nat)
    requires n > 0 && i < |s|
    ensures Chunks(s[i..], n) == [s[i..Min(i + n, |s|)]] + Chunks(s[Min(i + n, |s|)..], n)
  {
    var e := Min(i + n, |s|);
    if |s[i..]| <= n {
      assert s[e..] == [];
      assert s[i..e] == s[i..];
    } else {
      assert s[i..][..n] == s[i..e];
      assert s[i..][n..] == s[e..];
    }
  }

  /** Every add request for the batches of `tracks` succeeds. */
  predicate BatchesSucceed(tracks: seq<string>, addResult: nat -> Response<()>) {
    forall k :: 0 <= k < |Chunks(tracks, MaxTracksPerRequest)| ==> addResult(k).Ok?
  }

  /** Sends `tracks` in chunks of `MaxTracksPerRequest`; `addResult(k)` is the
      outcome of the `k`-th add request. The first failing request aborts the
      rest and its failure is passed on. `sent` lists the batches requested. */
  method AddTracksInChunks(tracks: seq<string>, addResult: nat -> Response<()>)
    returns (sent: seq<seq<string>>, r: Response<()>)
    ensures |sent| <= |Chunks(tracks, MaxTracksPerRequest)|
    ensures sent == Chunks(tracks, MaxTracksPerRequest)[..|sent|]
    ensures forall k :: 0 <= k < |sent| - 1 ==> addResult(k).Ok?
    ensures r.Ok? <==> sent == Chunks(tracks, MaxTracksPerRequest) && forall k :: 0 <= k < |sent| ==> addResult(k).Ok?
    ensures r.Err? ==> |sent| > 0 && r == addResult(|sent| - 1)
    ensures r.Ok? <==> BatchesSucceed(tracks, addResult)
  {
    var total := |tracks|;
    sent := [];
    var i := 0;
    ghost var all := Chunks(tracks, MaxTracksPerRequest);
    while i < total
      invariant i == MaxTracksPerRequest * |sent|
      invariant all == sent + Chunks(tracks[Min(i, total)..], MaxTracksPerRequest)
      invariant forall k :: 0 <= k < |sent| ==> addResult(k).Ok?
    {
      var end := Min(i + MaxTracksPerRequest, total);
      var batch := tracks[i..end];
      ChunksStep(tracks, MaxTracksPerRequest, i);
      sent := sent + [batch];
      var res := addResult(|sent| - 1);
      if res.Err? {
        assert all[..|sent|] == sent;
        return sent, res;
      }
      i := i + MaxTracksPerRequest;
    }
    assert tracks[Min(i, total)..] == [];
    r := Ok(());
  }

  /** Every batch that is sent holds between 1 and 100 URIs, and when no request
      fails the batches rebuild the list in `ceil(L / 100)` requests. */
  lemma SentBatchesPartition(tracks: seq<string>)
    ensures forall c :: c in Chunks(tracks, MaxTracksPerRequest) ==> 1 <= |c| <= MaxTracksPerRequest
    ensures Flatten(Chunks(tracks, MaxTracksPerRequest)) == tracks
    ensures |Chunks(tracks, MaxTracksPerRequest)| == CeilDiv(|tracks|, MaxTracksPerRequest)
    ensures tracks == [] <==> Chunks(tracks, MaxTracksPerRequest) == []
  {
    ChunksSizes(tracks, MaxTracksPerRequest);
    ChunksFlatten(tracks, MaxTracksPerRequest);
    ChunksCount(tracks, MaxTracksPerRequest);
  }
}
