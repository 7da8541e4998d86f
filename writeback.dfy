/**
 * The save path end to end: the shuffling pattern stored in the session
 * is applied to the playlist's tracks, the identifiers are projected out
 * and handed to the batcher, one "add tracks" call per batch.
 */
module WriteBack {
  import opened Wrappers
  import opened Shuffle
  import opened Tracks
  import opened Batcher

  /**
   * What the save writes is the playlist's identifiers, each as often as it
   * occurs in the playlist, in ceil(n / 100) calls of at most 100 items.
   */
  lemma ShuffledWriteBack(trackNames: seq<Track>, perm: seq<nat>)
    requires IsPermutation(perm, |trackNames|)
    ensures WriteBackIds(trackNames, perm).Some?
    ensures multiset(Flatten(Chunks(WriteBackIds(trackNames, perm).value))) == multiset(Ids(trackNames))
    ensures WellSized(Chunks(WriteBackIds(trackNames, perm).value))
    ensures |Chunks(WriteBackIds(trackNames, perm).value)| == BatchCount(|trackNames|)
  {
    WriteBackIdsRearrange(trackNames, perm);
    var ids := WriteBackIds(trackNames, perm).value;
    ChunksFlatten(ids);
    ChunksWellSized(ids);
    ChunksCount(ids);
  }

  /** The batches, joined, are the identifiers of the shuffled view in the view's order. */
  lemma ShuffledWriteBackOrder(trackNames: seq<Track>, perm: seq<nat>)
    requires IsPermutation(perm, |trackNames|)
    ensures WriteBackIds(trackNames, perm).Some? && Dereference(trackNames, perm).Some?
    ensures Flatten(Chunks(WriteBackIds(trackNames, perm).value)) == Ids(Dereference(trackNames, perm).value)
  {
    PermutationFacts(perm, |trackNames|);
    WriteBackIdsCommute(trackNames, perm);
    ChunksFlatten(WriteBackIds(trackNames, perm).value);
  }

  /**
   * A pattern stored for a playlist of n tracks, applied at save time to a
   * playlist that now has a different length: if the playlist shrank the
   * save fails (IndexError); if it grew, only n identifiers are written,
   * so the tracks added since are left out.
   */
  lemma StalePattern(trackNames: seq<Track>, perm: seq<nat>, n: nat)
    requires IsPermutation(perm, n)
    ensures WriteBackIds(trackNames, perm).Some? <==> n <= |trackNames|
    ensures n <= |trackNames| ==> |WriteBackIds(trackNames, perm).value| == n
  {
    PermutationFacts(perm, n);
    if n > |trackNames| {
      IotaCount(n, n - 1);
      assert n - 1 in multiset(perm);
      var i :| 0 <= i < |perm| && perm[i] == n - 1;
      assert !InRange(perm, |trackNames|);
    }
  }

  /**
   * A three-track playlist: the pattern is one of the six orderings of
   * 0, 1, 2, and the shuffled view holds each of the three tracks once.
   */
  lemma ThreeTrackPlaylist(perm: seq<nat>)
    requires IsPermutation(perm, 3)
    ensures perm == [0, 1, 2] || perm == [0, 2, 1] || perm == [1, 0, 2] ||
            perm == [1, 2, 0] || perm == [2, 0, 1] || perm == [2, 1, 0]
    ensures Dereference([Track("A", Some("1")), Track("B", Some("2")), Track("C", Some("3"))], perm).Some?
    ensures multiset(Dereference([Track("A", Some("1")), Track("B", Some("2")), Track("C", Some("3"))], perm).value)
            == multiset{Track("A", Some("1")), Track("B", Some("2")), Track("C", Some("3"))}
  {
    var tracks := [Track("A", Some("1")), Track("B", Some("2")), Track("C", Some("3"))];
    PermutationFacts(perm, 3);
    DereferencePermutation(tracks, perm);
    assert perm == [perm[0], perm[1], perm[2]];
  }

  /** 250 identifiers go out in three calls of 100, 100 and 50. */
  lemma TwoHundredFiftyIds<T>(ids: seq<T>)
    requires |ids| == 250
    ensures |Chunks(ids)| == 3
    ensures |Chunks(ids)[0]| == 100 && |Chunks(ids)[1]| == 100 && |Chunks(ids)[2]| == 50
  {
    var rest := ids[MaxBatch..];
    assert Chunks(ids) == [ids[..MaxBatch]] + Chunks(rest);
    assert Chunks(rest) == [rest[..MaxBatch]] + Chunks(rest[MaxBatch..]);
    assert Chunks(rest[MaxBatch..]) == [rest[MaxBatch..]];
  }
}
