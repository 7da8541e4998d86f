/**
 * The write-back batcher `get_tracks_for_add`: a generator that walks a list
 * of track identifiers and hands them out in groups, because the streaming
 * service's "add tracks to playlist" call accepts at most 100 items.
 *
 * The generator is modelled as a method that returns the whole sequence of
 * batches it would yield, in order.
 */
module Batcher {

  /** Largest number of items the "add tracks" call accepts per request. */
  const MaxBatch: nat := 100

  /** All batches joined end to end, in order. */
  function Flatten<T>(batches: seq<seq<T>>): seq<T>
  {
    if batches == [] then [] else batches[0] + Flatten(batches[1..])
  }

  /** Every batch is non-empty and holds at most MaxBatch items; every batch but the last is full. */
  ghost predicate WellSized<T>(batches: seq<seq<T>>)
  {
    (forall i :: 0 <= i < |batches| ==> 0 < |batches[i]| <= MaxBatch) &&
    (forall i :: 0 <= i < |batches| - 1 ==> |batches[i]| == MaxBatch)
  }

  /** Number of batches needed for m items: ceil(m / MaxBatch). */
  function BatchCount(m: nat): nat
  {
    (m + MaxBatch - 1) / MaxBatch
  }

  /**
   * Reference definition of the batching: full batches from the front,
   * the remainder (if any) as the last batch.
   */
  function Chunks<T>(s: seq<T>): seq<seq<T>>
    decreases |s|
  {
    if |s| == 0 then []
    else if |s| <= MaxBatch then [s]
    else [s[..MaxBatch]] + Chunks(s[MaxBatch..])
  }

  lemma {:induction false} FlattenAppend<T>(batches: seq<seq<T>>, b: seq<T>)
    ensures Flatten(batches + [b]) == Flatten(batches) + b
  {
    if batches != [] {
      assert (batches + [b])[1..] == batches[1..] + [b];
      FlattenAppend(batches[1..], b);
    }
  }

  /** Joining the batches gives back the input exactly: nothing omitted, duplicated or reordered. */
  lemma {:induction false} ChunksFlatten<T>(s: seq<T>)
    ensures Flatten(Chunks(s)) == s
    decreases |s|
  {
    if |s| > MaxBatch {
      ChunksFlatten(s[MaxBatch..]);
      assert s == s[..MaxBatch] + s[MaxBatch..];
    }
  }

  /** Batch sizes lie in [1, MaxBatch], and only the last batch may be short. */
  lemma {:induction false} ChunksWellSized<T>(s: seq<T>)
    ensures WellSized(Chunks(s))
    decreases |s|
  {
    if |s| > MaxBatch {
      ChunksWellSized(s[MaxBatch..]);
      var rest := Chunks(s[MaxBatch..]);
      assert Chunks(s) == [s[..MaxBatch]] + rest;
      forall i | 0 <= i < |Chunks(s)|
        ensures 0 < |Chunks(s)[i]| <= MaxBatch
        ensures i < |Chunks(s)| - 1 ==> |Chunks(s)[i]| == MaxBatch
      {
        if i > 0 {
          assert Chunks(s)[i] == rest[i - 1];
        }
      }
    }
  }

  /** An empty input gives no batch; m items give ceil(m / MaxBatch) batches. */
  lemma {:induction false} ChunksCount<T>(s: seq<T>)
    ensures |Chunks(s)| == BatchCount(|s|)
    ensures s == [] <==> Chunks(s) == []
    decreases |s|
  {
    if |s| > MaxBatch {
      ChunksCount(s[MaxBatch..]);
      assert BatchCount(|s|) == BatchCount(|s| - MaxBatch) + 1;
    }
  }

  /**
   * The shape fixes the batching: any sequence of batches that joins back
   * to s and is WellSized is exactly Chunks(s).
   */
  lemma {:induction false} ChunksUnique<T>(s: seq<T>, batches: seq<seq<T>>)
    requires Flatten(batches) == s
    requires WellSized(batches)
    ensures batches == Chunks(s)
    decreases |batches|
  {
    if batches != [] {
      var tail := batches[1..];
      assert s == batches[0] + Flatten(tail);
      if tail == [] {
        assert s == batches[0];
      } else {
        assert |batches[0]| == MaxBatch;
        assert Flatten(tail) == tail[0] + Flatten(tail[1..]);
        assert |tail[0]| > 0;
        assert s[..MaxBatch] == batches[0];
        assert s[MaxBatch..] == Flatten(tail);
        assert WellSized(tail) by {
          forall i | 0 <= i < |tail|
            ensures 0 < |tail[i]| <= MaxBatch
            ensures i < |tail| - 1 ==> |tail[i]| == MaxBatch
          {
            assert tail[i] == batches[i + 1];
          }
        }
        ChunksUnique(s[MaxBatch..], tail);
        assert batches == [batches[0]] + tail;
      }
    }
  }

  /** Every batch is full. */
  ghost predicate AllFull<T>(batches: seq<seq<T>>)
  {
    forall i :: 0 <= i < |batches| ==> |batches[i]| == MaxBatch
  }

  /** Emitting a non-empty batch after full ones keeps the shape. */
  lemma WellSizedAppend<T>(batches: seq<seq<T>>, b: seq<T>)
    requires AllFull(batches)
    requires 0 < |b| <= MaxBatch
    ensures WellSized(batches + [b])
    ensures |b| == MaxBatch ==> AllFull(batches + [b])
  {
  }

  /**
   * `get_tracks_for_add`: appends each item to `output` and emits `output`
   * once it holds MaxBatch items or the last item has been appended, then
   * starts a fresh `output`.
   */
  method GetTracksForAdd<T>(tracks: seq<T>) returns (batches: seq<seq<T>>)
    ensures Flatten(batches) == tracks
    ensures WellSized(batches)
    ensures |batches| == BatchCount(|tracks|)
    ensures batches == Chunks(tracks)
  {
    batches := [];
    var index := 0;
    var output: seq<T> := [];
    while index < |tracks|
      invariant 0 <= index <= |tracks|
      invariant Flatten(batches) + output == tracks[..index]
      invariant |output| < MaxBatch
      invariant index == |tracks| ==> output == []
      invariant WellSized(batches)
      invariant index < |tracks| ==> AllFull(batches)
    {
      assert tracks[..index + 1] == tracks[..index] + [tracks[index]];
      output := output + [tracks[index]];
      if |output| == MaxBatch || index == |tracks| - 1 {
        FlattenAppend(batches, output);
        WellSizedAppend(batches, output);
        batches := batches + [output];
        output := [];
      }
      index := index + 1;
    }
    assert tracks[..index] == tracks;
    ChunksUnique(tracks, batches);
    ChunksCount(tracks);
  }
}
